/** The bytes absorbed while the raw transaction is read are the serialization of the transaction
    whose inputs carry the hashes of their sources. */
module RawDigest {
  import opened Words
  import opened Schema
  import opened Automaton
  import opened Views
  import opened Encoding
  import opened RoundTrip
  import opened Transaction
  import opened Shapes
  import opened Hashing
  import opened Rewrite

  /** Child `k` is absorbed, and nothing else happens before the next child. */
  lemma {:induction false} KidAbsorbed(H: Hash, d: Digest, s: Schema, vals: seq<Val>, k: nat, d1: Digest)
    requires s.Table? && k < |vals| == |s.fields|
    requires forall i | k <= i < |vals| :: Typed(s.fields[i], vals[i])
    requires k + 1 < |vals| ==> !s.fields[k + 1].Struct? && !s.fields[k + 1].Option? && s.fields[k + 1].tag != Input
    requires Run(H, d, Replay(s.fields[k], vals[k])) == d1
    ensures Run(H, d, ReplayKids(s, vals, k)) == Run(H, d1, ReplayKids(s, vals, k + 1))
  {
    assert Kid(s, k) == s.fields[k];
    assert Run(H, d1, BetweenEv(s, k)) == d1 by {
      if k + 1 < |vals| && !s.fields[k + 1].IsLeaf() {
        assert BetweenEv(s, k) == [Start(s.fields[k + 1].tag)];
        UnseenRun(H, d1, Start(s.fields[k + 1].tag), Start(s.fields[k + 1].tag));
      } else {
        assert BetweenEv(s, k) == [];
      }
    }
    hide Run, Replay, BetweenEv;
    KidRun(H, d, s, vals, k);
  }

  /** The encodings of the fields of an annotated raw transaction, and its inputs. */
  function RawParts(v: Val): seq<seq<u8>>
    requires Typed(AnnotatedRaw(), v)
  {
    Parts(AnnotatedRaw(), v.vals, 0)
  }

  predicate RawShape(v: Val) {
    && v.Items? && |v.vals| == 6
    && Typed(Array(Version, 4), v.vals[0]) && Typed(CellDepVec(CellDeps), v.vals[1]) && Typed(Byte32Vec(HeaderDeps), v.vals[2])
    && Typed(InputVec(), v.vals[3]) && Typed(OutputVec(), v.vals[4]) && Typed(BytesVec(OutputsData, OutputDatum), v.vals[5])
  }

  lemma {:induction false} RawShaped(v: Val)
    requires Typed(AnnotatedRaw(), v)
    ensures RawShape(v)
  {
    var f := AnnotatedRaw().fields;
    assert Typed(f[0], v.vals[0]) && Typed(f[1], v.vals[1]) && Typed(f[2], v.vals[2]);
    assert Typed(f[3], v.vals[3]) && Typed(f[4], v.vals[4]) && Typed(f[5], v.vals[5]);
  }

  /** The input vector of the plain transaction. */
  function PlainVecBytes(H: Hash, v: Val): seq<u8>
    requires Typed(InputVec(), v)
  {
    InputsShaped(v);
    Pack(Low32(|v.vals|)) + PlainAll(H, v.vals)
  }

  lemma {:induction false} InputsShaped(v: Val)
    requires Typed(InputVec(), v)
    ensures v.Items? && forall i | 0 <= i < |v.vals| :: Typed(AnnotatedInput(), v.vals[i])
  {
  }

  /** The parts of the plain transaction. */
  function PlainParts(H: Hash, v: Val): (parts: seq<seq<u8>>)
    requires RawShape(v)
    ensures |parts| == 6
  {
    [Encode(Array(Version, 4), v.vals[0]), Encode(CellDepVec(CellDeps), v.vals[1]), Encode(Byte32Vec(HeaderDeps), v.vals[2]),
     PlainVecBytes(H, v.vals[3]), Encode(OutputVec(), v.vals[4]), Encode(BytesVec(OutputsData, OutputDatum), v.vals[5])]
  }

  lemma {:induction false} AbsorbTwo(d: Digest, a: seq<u8>, b: seq<u8>)
    ensures Absorb(Absorb(d, a), b) == Absorb(d, a + b)
  {
    assert d.main + a + b == d.main + (a + b);
  }

  // ---------- Field by field ----------

  /** A node that is absorbed as it is. */
  predicate Copied(t: Tag) {
    t == CellDeps || t == HeaderDeps || t == Outputs || t == OutputsData
  }

  lemma {:induction false} CopyEnd(H: Hash, d: Digest, t: Tag, bs: seq<u8>)
    requires Copied(t)
    ensures t in HASHING.chunk && Apply(H, Apply(H, d, Chunk(t, bs)), End(t)) == Absorb(d, bs)
  {
  }

  lemma {:induction false} CopyRun(H: Hash, d: Digest, s: Schema, v: Val)
    requires Typed(s, v) && |Encode(s, v)| < U32_SIZE && Calm(d)
    requires Regular(s) && Anti(HASHING, s) && !s.IsLeaf() && !s.Bytes? && Copied(s.tag)
    ensures Run(H, d, Replay(s, v)) == Absorb(d, Encode(s, v))
  {
    CopyEnd(H, d, s.tag, Encode(s, v));
    hide *;
    ChunkNodeRun(H, d, s, v);
  }

  /** What the end of the input vector leaves behind. */
  function Reset(d: Digest): Digest {
    d.(source := [], index := NO_INDEX, txHash := [], isFirst := false, firstDone := false, final := [], scan := NO_SCAN)
  }

  /** The digest when `k` fields have been read since it was `d`. */
  function At(H: Hash, d: Digest, v: Val, k: nat): Digest
    requires RawShape(v) && k <= 6
  {
    var e := Absorb(d, Join(PlainParts(H, v)[..k]));
    if k <= 3 then e else Reset(e)
  }

  lemma {:induction false} JoinNext(parts: seq<seq<u8>>, k: nat)
    requires k < |parts|
    ensures Join(parts[..k + 1]) == Join(parts[..k]) + parts[k]
  {
    assert parts[..k + 1] == parts[..k] + [parts[k]];
    JoinPlus(parts[..k], [parts[k]]);
    JoinOne(parts[k]);
  }

  /** The next field's contribution. */
  lemma {:induction false} AtNext(H: Hash, d: Digest, v: Val, k: nat)
    requires RawShape(v) && k < 6
    ensures At(H, d, v, k + 1) == (if k == 3 then Reset(Absorb(At(H, d, v, k), PlainParts(H, v)[k])) else Absorb(At(H, d, v, k), PlainParts(H, v)[k]))
    ensures At(H, d, v, k).args == d.args && At(H, d, v, k).count == d.count
  {
    hide PlainParts, Join, RawShape;
    var p := PlainParts(H, v);
    JoinNext(p, k);
    AbsorbTwo(d, Join(p[..k]), p[k]);
  }

  lemma {:induction false} FieldSmall(v: Val, k: nat)
    requires Typed(AnnotatedRaw(), v) && RawShape(v) && k < 6
    ensures Typed(AnnotatedRaw().fields[k], v.vals[k])
    ensures |Encode(AnnotatedRaw().fields[k], v.vals[k])| <= |Encode(AnnotatedRaw(), v)|
  {
    KidSmall(AnnotatedRaw(), v, k);
    assert Kid(AnnotatedRaw(), k) == AnnotatedRaw().fields[k];
  }

  lemma {:induction false} PartIs(H: Hash, v: Val, k: nat)
    requires RawShape(v) && k < 6 && k != 3 && Typed(AnnotatedRaw().fields[k], v.vals[k])
    ensures PlainParts(H, v)[k] == Encode(AnnotatedRaw().fields[k], v.vals[k])
  {
  }

  lemma {:induction false} FieldRun(H: Hash, d: Digest, v: Val, k: nat)
    requires Typed(AnnotatedRaw(), v) && RawShape(v) && k < 6 && |Encode(AnnotatedRaw(), v)| < U32_SIZE && Calm(d)
    requires v.vals[3].vals != [] && |v.vals[3].vals| == d.count
    ensures Run(H, At(H, d, v, k), Replay(AnnotatedRaw().fields[k], v.vals[k])) == At(H, d, v, k + 1)
  {
    FieldSmall(v, k);
    AtNext(H, d, v, k);
    var d0 := At(H, d, v, k);
    var s, w := AnnotatedRaw().fields[k], v.vals[k];
    if k != 3 { PartIs(H, v, k); }
    if k == 0 {
      VersionRun(H, d0, w);
    } else if k == 3 {
      InputsField(H, d0, v);
    } else {
      CopiedFields(k);
      hide *;
      CopyRun(H, d0, s, w);
    }
  }

  lemma {:induction false} VersionRun(H: Hash, d: Digest, w: Val)
    requires Typed(Array(Version, 4), w)
    ensures Run(H, d, Replay(Array(Version, 4), w)) == Absorb(d, Encode(Array(Version, 4), w))
  {
    LeafRun(H, d, Array(Version, 4), w);
  }

  lemma {:induction false} CopiedFields(k: nat)
    requires k in {1, 2, 4, 5}
    ensures var s := AnnotatedRaw().fields[k]; Regular(s) && Anti(HASHING, s) && !s.IsLeaf() && !s.Bytes? && Copied(s.tag)
  {
    VecAnti();
    VecsRegularHere();
    AnnotatedFields();
    hide Anti, Regular, AnnotatedRaw, CellOutput;
  }

  lemma {:induction false} VecsRegularHere()
    ensures Regular(CellDepVec(CellDeps)) && Regular(Byte32Vec(HeaderDeps)) && Regular(OutputVec()) && Regular(BytesVec(OutputsData, OutputDatum))
  {
    VecsRegular(CellDeps);
    VecsRegular(HeaderDeps);
    OutputRegular(Output, Quiet, LockArgsOut);
    VecsOf(CellOutput(Output, Quiet, LockArgsOut), Outputs);
    BytesOf();
    hide Regular;
  }

  lemma {:induction false} AnnotatedFields()
    ensures AnnotatedRaw().Table?
    ensures AnnotatedRaw().fields == [Array(Version, 4), CellDepVec(CellDeps), Byte32Vec(HeaderDeps), InputVec(), OutputVec(),
                                      BytesVec(OutputsData, OutputDatum)]
  {
  }

  lemma {:induction false} InputsField(H: Hash, d: Digest, v: Val)
    requires RawShape(v) && |Encode(InputVec(), v.vals[3])| < U32_SIZE && Calm(d)
    requires v.vals[3].vals != [] && |v.vals[3].vals| == d.count
    ensures Run(H, d, Replay(InputVec(), v.vals[3])) == Reset(Absorb(d, PlainParts(H, v)[3]))
  {
    var w := v.vals[3];
    assert PlainParts(H, v)[3] == Pack(d.count) + PlainAll(H, w.vals);
    hide Run, Replay, Calm, Encode, PlainAll, Pack, PlainParts, RawShape;
    InputsRun(H, d, w);
  }

  lemma {:induction false} FieldsRun(H: Hash, d: Digest, v: Val, k: nat)
    requires Typed(AnnotatedRaw(), v) && RawShape(v) && k <= 6 && |Encode(AnnotatedRaw(), v)| < U32_SIZE && Calm(d)
    requires v.vals[3].vals != [] && |v.vals[3].vals| == d.count
    requires forall i | k <= i < 6 :: Typed(Kid(AnnotatedRaw(), i), v.vals[i])
    ensures Run(H, At(H, d, v, k), ReplayKids(AnnotatedRaw(), v.vals, k)) == At(H, d, v, 6)
    decreases 6 - k
  {
    if k < 6 {
      FieldsRun(H, d, v, k + 1);
      FieldNext(H, d, v, k);
    }
  }

  lemma {:induction false} FieldNext(H: Hash, d: Digest, v: Val, k: nat)
    requires Typed(AnnotatedRaw(), v) && RawShape(v) && k < 6 && |Encode(AnnotatedRaw(), v)| < U32_SIZE && Calm(d)
    requires v.vals[3].vals != [] && |v.vals[3].vals| == d.count
    requires forall i | k <= i < 6 :: Typed(Kid(AnnotatedRaw(), i), v.vals[i])
    ensures Run(H, At(H, d, v, k), ReplayKids(AnnotatedRaw(), v.vals, k))
         == Run(H, At(H, d, v, k + 1), ReplayKids(AnnotatedRaw(), v.vals, k + 1))
  {
    FieldRun(H, d, v, k);
    FieldsPlain(v, k);
    hide *;
    KidAbsorbed(H, At(H, d, v, k), AnnotatedRaw(), v.vals, k, At(H, d, v, k + 1));
  }

  lemma {:induction false} FieldsPlain(v: Val, k: nat)
    requires Typed(AnnotatedRaw(), v) && RawShape(v) && k < 6
    requires forall i | k <= i < 6 :: Typed(Kid(AnnotatedRaw(), i), v.vals[i])
    ensures var s := AnnotatedRaw();
            && s.Table? && v.Items? && |v.vals| == |s.fields| == 6
            && (k < 5 ==> !s.fields[k + 1].Struct? && !s.fields[k + 1].Option? && s.fields[k + 1].tag != Input)
            && forall i | k <= i < 6 :: Typed(s.fields[i], v.vals[i])
  {
    forall i | k <= i < 6 ensures Typed(AnnotatedRaw().fields[i], v.vals[i]) {
      assert Kid(AnnotatedRaw(), i) == AnnotatedRaw().fields[i];
    }
  }

  // ---------- The header ----------

  lemma {:induction false} WordsOfSeven(a: u32, b: u32, c: u32, d: u32, e: u32, f: u32, g: u32)
    ensures WordBytes([a, b, c, d, e, f, g]) == Pack(a) + Pack(b) + Pack(c) + Pack(d) + Pack(e) + Pack(f) + Pack(g)
  {
    hide Pack;
    WordsCons(g, []);
    WordsCons(f, [g]);
    WordsCons(e, [f, g]);
    WordsCons(d, [e, f, g]);
    WordsCons(c, [d, e, f, g]);
    WordsCons(b, [c, d, e, f, g]);
    WordsCons(a, [b, c, d, e, f, g]);
  }

  lemma {:induction false} WordsCons(a: u32, ws: seq<u32>)
    ensures WordBytes([a] + ws) == Pack(a) + WordBytes(ws)
  {
    assert ([a] + ws)[1..] == ws;
  }

  /** The header of six parts. */
  function SixHead(a: nat, b: nat, c: nat, d: nat, e: nat, f: nat): seq<u32>
    requires 28 + a + b + c + d + e + f < U32_SIZE
  {
    [28 + a + b + c + d + e + f, 28, 28 + a, 28 + a + b, 28 + a + b + c, 28 + a + b + c + d, 28 + a + b + c + d + e]
  }

  lemma {:induction false} HeadOfSix(p: seq<seq<u8>>)
    requires |p| == 6 && 28 + |Join(p)| < U32_SIZE
    ensures |Join(p)| == |p[0]| + |p[1]| + |p[2]| + |p[3]| + |p[4]| + |p[5]|
    ensures HeadWords(p) == SixHead(|p[0]|, |p[1]|, |p[2]|, |p[3]|, |p[4]|, |p[5]|)
  {
    SixLengths(p);
    HeadWordAt(p, 0);
    HeadWordAt(p, 1);
    HeadWordAt(p, 2);
    HeadWordAt(p, 3);
    HeadWordAt(p, 4);
    HeadWordAt(p, 5);
    HeadWordAt(p, 6);
  }

  lemma {:induction false} SixLengths(p: seq<seq<u8>>)
    requires |p| == 6
    ensures |Join(p[..0])| == 0 && |Join(p[..1])| == |p[0]| && |Join(p[..2])| == |p[0]| + |p[1]|
    ensures |Join(p[..3])| == |p[0]| + |p[1]| + |p[2]| && |Join(p[..4])| == |p[0]| + |p[1]| + |p[2]| + |p[3]|
    ensures |Join(p[..5])| == |p[0]| + |p[1]| + |p[2]| + |p[3]| + |p[4]|
    ensures |Join(p[..6])| == |p[0]| + |p[1]| + |p[2]| + |p[3]| + |p[4]| + |p[5]|
    ensures p[..6] == p
  {
    hide Join;
    assert p[..6] == p;
    assert Join(p[..0]) == [] by { EmptyJoin(); }
    JoinUpTo(p, 0);
    JoinUpTo(p, 1);
    JoinUpTo(p, 2);
    JoinUpTo(p, 3);
    JoinUpTo(p, 4);
    JoinUpTo(p, 5);
  }

  lemma {:induction false} EmptyJoin()
    ensures Join([]) == []
  {
  }

  /** Replacing the fourth part by one of `4 + 44 * count` bytes shifts the total size and the
      offsets after it, and those are exactly the numbers the device computes. */
  lemma {:induction false} HeaderShift(a: nat, b: nat, c: nat, d: nat, e: nat, f: nat, count: u32)
    requires 28 + a + b + c + d + e + f < U32_SIZE && 44 * count + 4 <= d
    ensures NewHeader(SixHead(a, b, c, d, e, f), count) == WordBytes(SixHead(a, b, c, 44 * count + 4, e, f))
  {
    var w, w' := SixHead(a, b, c, d, e, f), SixHead(a, b, c, 44 * count + 4, e, f);
    var sub := Sub32(Sub32(w[5], w[4]), Add32(44 * count, 4));
    assert sub == d - (44 * count + 4);
    assert Sub32(w[0], sub) == w'[0] && Sub32(w[5], sub) == w'[5] && Sub32(w[6], sub) == w'[6];
    hide Pack, WordBytes, Sub32, Add32;
    WordsOfSeven(w'[0], w'[1], w'[2], w'[3], w'[4], w'[5], w'[6]);
  }

  lemma {:induction false} JoinAtLeast(parts: seq<seq<u8>>, each: nat)
    requires forall i | 0 <= i < |parts| :: |parts[i]| >= each
    ensures |Join(parts)| >= Times(|parts|, each)
  {
    if parts != [] { JoinAtLeast(parts[1..], each); }
  }

  /** An annotated input is no shorter than the plain input it stands for. */
  lemma {:induction false} InputLength(v: Val)
    requires Typed(AnnotatedInput(), v)
    ensures |Encode(AnnotatedInput(), v)| >= 44
  {
    AnnotatedInputShaped(v);
    KidSmall(AnnotatedInput(), v, 0);
    CellsRegular();
    FixedLen(CellInput(), v.vals[0]);
  }

  lemma {:induction false} InputsLength(v: Val)
    requires Typed(InputVec(), v)
    ensures |Encode(InputVec(), v)| >= 4 + 44 * |v.vals|
  {
    var parts := Parts(InputVec(), v.vals, 0);
    forall i | 0 <= i < |parts| ensures |parts[i]| >= 44 { InputLength(v.vals[i]); }
    JoinAtLeast(parts, 44);
    TimesIsProduct(|parts|, 44);
  }

  lemma {:induction false} PlainAllLength(H: Hash, vals: seq<Val>)
    requires IsHash(H) && forall i | 0 <= i < |vals| :: Typed(AnnotatedInput(), vals[i])
    ensures |PlainAll(H, vals)| == 44 * |vals|
  {
    if vals != [] {
      PlainInputEncode(H, vals[0]);
      PlainAllLength(H, vals[1..]);
    }
  }

  /** The serialization of the plain transaction. */
  function PlainBytes(H: Hash, v: Val): seq<u8>
    requires RawShape(v)
  {
    WordBytes(HeadWords(PlainParts(H, v))) + Join(PlainParts(H, v))
  }

  lemma {:induction false} PlainLengths(H: Hash, v: Val)
    requires IsHash(H) && Typed(AnnotatedRaw(), v) && RawShape(v) && |Encode(AnnotatedRaw(), v)| < U32_SIZE
    ensures var p, q, n := RawParts(v), PlainParts(H, v), |v.vals[3].vals|;
            && |p| == 6 && 28 + |Join(p)| == |Encode(AnnotatedRaw(), v)|
            && (forall k | 0 <= k < 6 && k != 3 :: p[k] == q[k]) && |q[3]| == 44 * n + 4 <= |p[3]|
  {
    var p, q, w := RawParts(v), PlainParts(H, v), v.vals[3];
    InputsLength(w);
    PlainAllLength(H, w.vals);
    forall k | 0 <= k < 6 && k != 3 ensures p[k] == q[k] {
      FieldSmall(v, k);
      PartIs(H, v, k);
      assert Kid(AnnotatedRaw(), k) == AnnotatedRaw().fields[k];
    }
    assert p[3] == Encode(InputVec(), w) by { assert Kid(AnnotatedRaw(), 3) == InputVec(); }
  }

  /** The header absorbed is the header of the plain transaction. */
  lemma {:induction false} HeaderIsPlain(H: Hash, v: Val, count: u32)
    requires IsHash(H) && Typed(AnnotatedRaw(), v) && RawShape(v) && |Encode(AnnotatedRaw(), v)| < U32_SIZE
    requires |v.vals[3].vals| == count
    ensures NewHeader(HeadWords(RawParts(v)), count) == WordBytes(HeadWords(PlainParts(H, v)))
  {
    var p, q := RawParts(v), PlainParts(H, v);
    PlainLengths(H, v);
    assert p[0] == q[0] && p[1] == q[1] && p[2] == q[2] && p[4] == q[4] && p[5] == q[5];
    hide *;
    HeaderOf(p, q, count);
  }

  lemma {:induction false} HeaderOf(p: seq<seq<u8>>, q: seq<seq<u8>>, count: u32)
    requires |p| == 6 && |q| == 6 && p[0] == q[0] && p[1] == q[1] && p[2] == q[2] && p[4] == q[4] && p[5] == q[5]
    requires 28 + |Join(p)| < U32_SIZE && |q[3]| == 44 * count + 4 <= |p[3]|
    ensures NewHeader(HeadWords(p), count) == WordBytes(HeadWords(q))
  {
    hide *;
    HeadOfSix(p);
    SixLengths(q);
    HeadOfSix(q);
    HeaderShift(|p[0]|, |p[1]|, |p[2]|, |p[3]|, |p[4]|, |p[5]|, count);
  }

  // ---------- The absorbed bytes ----------

  lemma {:induction false} RawForm(v: Val)
    requires Typed(AnnotatedRaw(), v) && RawShape(v)
    ensures Within(AnnotatedRaw(), v) == [Offsets(RawTx, HeadWords(RawParts(v)))] + ReplayKids(AnnotatedRaw(), v.vals, 0)
  {
    var nums := HeadWords(RawParts(v));
    assert Kept(AnnotatedRaw(), v) == nums && KidVals(AnnotatedRaw(), v) == v.vals;
    assert InitEv(AnnotatedRaw().fields[0]) == [];
    assert EnterEv(AnnotatedRaw(), nums, 6) == [Offsets(RawTx, nums)];
  }

  /** While the annotated raw transaction is read, exactly the serialization of the plain one is
      absorbed, and the transaction hash is the hash of that. */
  lemma {:induction false} RawRun(H: Hash, d: Digest, v: Val)
    requires IsHash(H) && Typed(AnnotatedRaw(), v) && RawShape(v) && |Encode(AnnotatedRaw(), v)| < U32_SIZE && Calm(d)
    requires v.vals[3].vals != [] && |v.vals[3].vals| == d.count && !d.flagged
    ensures Run(H, d, Replay(AnnotatedRaw(), v))
         == Reset(Absorb(d, PlainBytes(H, v))).(txHash := H(d.main + PlainBytes(H, v)))
  {
    var head, fields := WordBytes(HeadWords(PlainParts(H, v))), Join(PlainParts(H, v));
    var d1 := Absorb(d, head);
    HeaderIsPlain(H, v, d.count);
    RawWithin(H, d, v, d1);
    AbsorbTwo(d, head, fields);
    RawEnd(H, d, v, Reset(Absorb(d1, fields)));
  }

  lemma {:induction false} RawEnd(H: Hash, d: Digest, v: Val, d2: Digest)
    requires Typed(AnnotatedRaw(), v) && Run(H, d, Within(AnnotatedRaw(), v)) == d2 && !d2.flagged
    ensures Run(H, d, Replay(AnnotatedRaw(), v)) == d2.(txHash := H(d2.main))
  {
    RunEnd(H, d, AnnotatedRaw(), v, d2);
  }

  lemma {:induction false} AtEnds(H: Hash, d: Digest, v: Val)
    requires RawShape(v)
    ensures At(H, d, v, 0) == d && At(H, d, v, 6) == Reset(Absorb(d, Join(PlainParts(H, v))))
  {
    assert PlainParts(H, v)[..6] == PlainParts(H, v);
    assert d.main + [] == d.main;
  }

  lemma {:induction false} RawWithin(H: Hash, d: Digest, v: Val, d1: Digest)
    requires Typed(AnnotatedRaw(), v) && RawShape(v) && |Encode(AnnotatedRaw(), v)| < U32_SIZE && Calm(d)
    requires v.vals[3].vals != [] && |v.vals[3].vals| == d.count
    requires d1 == Absorb(d, NewHeader(HeadWords(RawParts(v)), d.count))
    ensures Run(H, d, Within(AnnotatedRaw(), v)) == Reset(Absorb(d1, Join(PlainParts(H, v))))
  {
    var e := Offsets(RawTx, HeadWords(RawParts(v)));
    RawForm(v);
    AtEnds(H, d1, v);
    OffsetsRun(H, d, HeadWords(RawParts(v)));
    RawKidsTyped(v);
    assert d1.count == d.count && d1.args == d.args && d1.multisig == d.multisig by { hide NewHeader; }
    CalmLike(d, d1);
    hide *;
    FieldsRun(H, d1, v, 0);
    RunPlus(H, d, [e], ReplayKids(AnnotatedRaw(), v.vals, 0));
  }

  lemma {:induction false} OffsetsRun(H: Hash, d: Digest, ws: seq<u32>)
    ensures Run(H, d, [Offsets(RawTx, ws)]) == Absorb(d, NewHeader(ws, d.count))
  {
    RunTwo(H, d, Offsets(RawTx, ws), Offsets(RawTx, ws));
  }

  lemma {:induction false} RawKidsTyped(v: Val)
    requires Typed(AnnotatedRaw(), v) && RawShape(v)
    ensures forall i | 0 <= i < 6 :: Typed(Kid(AnnotatedRaw(), i), v.vals[i])
  {
    forall i | 0 <= i < 6 ensures Typed(Kid(AnnotatedRaw(), i), v.vals[i]) { FieldSmall(v, i); }
  }

  // ---------- The plain transaction ----------

  function PlainVals(H: Hash, vals: seq<Val>): (w: seq<Val>)
    requires forall i | 0 <= i < |vals| :: Typed(AnnotatedInput(), vals[i])
    ensures |w| == |vals|
  {
    seq(|vals|, i requires 0 <= i < |vals| => PlainInput(H, vals[i]))
  }

  /** The transaction the network knows: every annotated input is replaced by its `since`, the hash
      of its source's serialization, and its index. */
  function PlainRaw(H: Hash, v: Val): Val
    requires RawShape(v)
  {
    InputsShaped(v.vals[3]);
    Items([v.vals[0], v.vals[1], v.vals[2], Items(PlainVals(H, v.vals[3].vals)), v.vals[4], v.vals[5]])
  }

  function PlainVec(): Schema {
    FixVec(Quiet, PlainCell(), NO_LIMIT)
  }

  lemma {:induction false} PlainJoin(H: Hash, vals: seq<Val>, k: nat)
    requires IsHash(H) && k <= |vals| && forall i | 0 <= i < |vals| :: Typed(AnnotatedInput(), vals[i])
    requires forall i | 0 <= i < |vals| :: Typed(PlainCell(), PlainVals(H, vals)[i])
    ensures Join(Parts(PlainVec(), PlainVals(H, vals), k)) == PlainAll(H, vals[k..])
    decreases |vals| - k
  {
    if k < |vals| {
      PlainJoin(H, vals, k + 1);
      PlainInputEncode(H, vals[k]);
      assert vals[k..][1..] == vals[k + 1..];
      assert Parts(PlainVec(), PlainVals(H, vals), k)[1..] == Parts(PlainVec(), PlainVals(H, vals), k + 1);
      hide PlainInputBytes, Encode;
    }
  }

  lemma {:induction false} PlainVecTyped(H: Hash, vals: seq<Val>)
    requires IsHash(H) && forall i | 0 <= i < |vals| :: Typed(AnnotatedInput(), vals[i])
    requires 44 * |vals| + 4 < U32_SIZE
    ensures forall i | 0 <= i < |vals| :: Typed(PlainCell(), PlainVals(H, vals)[i])
    ensures Typed(PlainVec(), Items(PlainVals(H, vals)))
  {
    forall i | 0 <= i < |vals| ensures Typed(PlainCell(), PlainVals(H, vals)[i]) { PlainInputEncode(H, vals[i]); }
    CellsRegular();
    TimesIsProduct(|vals|, 44);
  }

  lemma {:induction false} PlainVecEncode(H: Hash, v: Val)
    requires IsHash(H) && Typed(InputVec(), v) && 44 * |v.vals| + 4 < U32_SIZE
    ensures Typed(PlainVec(), Items(PlainVals(H, v.vals)))
    ensures Encode(PlainVec(), Items(PlainVals(H, v.vals))) == PlainVecBytes(H, v)
  {
    PlainVecTyped(H, v.vals);
    PlainJoin(H, v.vals, 0);
    assert v.vals[0..] == v.vals;
    hide PlainAll, Join, PlainCell, PlainVals, Pack;
  }

  /** The absorbed bytes are the Molecule serialization of the plain transaction. */
  lemma {:induction false} PlainEncode(H: Hash, v: Val)
    requires IsHash(H) && Typed(AnnotatedRaw(), v) && RawShape(v) && |Encode(AnnotatedRaw(), v)| < U32_SIZE
    ensures Typed(RawTransaction(), PlainRaw(H, v))
    ensures Encode(RawTransaction(), PlainRaw(H, v)) == PlainBytes(H, v)
  {
    var s, w := RawTransaction(), PlainRaw(H, v);
    PlainLengths(H, v);
    assert 44 * |v.vals[3].vals| + 4 < U32_SIZE by { SixLengths(RawParts(v)); }
    PlainVecEncode(H, v.vals[3]);
    PlainTyped(H, v);
    PlainPartsAre(H, v);
    hide *;
    TableForm(s, w);
  }

  lemma {:induction false} TableForm(s: Schema, w: Val)
    requires s.Table? && Typed(s, w)
    ensures w.Items? && Encode(s, w) == WordBytes(HeadWords(Parts(s, w.vals, 0))) + Join(Parts(s, w.vals, 0))
  {
  }

  lemma {:induction false} PlainTyped(H: Hash, v: Val)
    requires RawShape(v) && Typed(PlainVec(), Items(PlainVals(H, v.vals[3].vals)))
    ensures Typed(RawTransaction(), PlainRaw(H, v))
  {
    var s, w := RawTransaction(), PlainRaw(H, v);
    forall i | 0 <= i < 6 ensures Typed(s.fields[i], w.vals[i]) {
      hide Typed;
    }
  }

  lemma {:induction false} PlainPartsAre(H: Hash, v: Val)
    requires RawShape(v) && Typed(RawTransaction(), PlainRaw(H, v)) && Typed(PlainVec(), Items(PlainVals(H, v.vals[3].vals)))
    requires Encode(PlainVec(), Items(PlainVals(H, v.vals[3].vals))) == PlainVecBytes(H, v.vals[3])
    ensures Parts(RawTransaction(), PlainRaw(H, v).vals, 0) == PlainParts(H, v)
  {
    var s, w := RawTransaction(), PlainRaw(H, v);
    RawFields();
    hide Encode, Typed, Parts, RawTransaction, RawShape, PlainVec, PlainVals, PlainVecBytes, CellDepVec, Byte32Vec, OutputVec, BytesVec;
    SixParts(s, w);
  }

  lemma {:induction false} SixParts(s: Schema, w: Val)
    requires s.Table? && |s.fields| == 6 && Typed(s, w)
    ensures w.Items? && |w.vals| == 6 && forall i | 0 <= i < 6 :: Typed(s.fields[i], w.vals[i])
    ensures var f, u := s.fields, w.vals;
            Parts(s, u, 0) == [Encode(f[0], u[0]), Encode(f[1], u[1]), Encode(f[2], u[2]), Encode(f[3], u[3]), Encode(f[4], u[4]), Encode(f[5], u[5])]
  {
    hide Encode, Parts;
    forall i | 0 <= i < 6 ensures w.Items? && Typed(s.fields[i], w.vals[i]) && Parts(s, w.vals, 0)[i] == Encode(s.fields[i], w.vals[i]) {
      PartOf(s, w, i);
    }
  }

  lemma {:induction false} PartOf(s: Schema, w: Val, i: nat)
    requires s.Table? && Typed(s, w) && i < |s.fields|
    ensures w.Items? && Typed(s.fields[i], w.vals[i]) && Parts(s, w.vals, 0)[i] == Encode(s.fields[i], w.vals[i])
  {
    assert Kid(s, i) == s.fields[i];
  }

  lemma {:induction false} RawFields()
    ensures RawTransaction().Table?
    ensures RawTransaction().fields == [Array(Version, 4), CellDepVec(CellDeps), Byte32Vec(HeaderDeps), PlainVec(), OutputVec(),
                                        BytesVec(OutputsData, OutputDatum)]
  {
  }
}
