/** The bytes absorbed while the witnesses are read, when no signed input is multisig. */
module WitnessDigest {
  import opened Words
  import opened Schema
  import opened Automaton
  import opened Views
  import opened Lifting
  import opened Encoding
  import opened RoundTrip
  import opened Transaction
  import opened Shapes
  import opened Hashing
  import opened Rewrite
  import opened RawDigest

  // ---------- Witness arguments ----------

  /** A signature of zeros. */
  function BlankLock(): Val {
    Some(Blob(Zeros(65)))
  }

  function NoArgs(): Val {
    Items([None, None, None])
  }

  predicate ArgsShape(a: Val) {
    && a.Items? && |a.vals| == 3
    && Typed(Option(Quiet, Bytes(WitnessLock)), a.vals[0]) && Typed(Option(WitnessInType, Bytes(Quiet)), a.vals[1])
    && Typed(Option(WitnessOutType, Bytes(Quiet)), a.vals[2])
  }

  lemma {:induction false} ArgsShaped(a: Val)
    ensures Typed(WitnessArgs(), a) <==> ArgsShape(a)
  {
    var f := WitnessArgs().fields;
    if Typed(WitnessArgs(), a) {
      assert Typed(f[0], a.vals[0]) && Typed(f[1], a.vals[1]) && Typed(f[2], a.vals[2]);
    }
  }

  /** The arguments with the lock replaced by a signature of zeros. */
  function Blanked(a: Val): Val
    requires ArgsShape(a)
  {
    Items([BlankLock(), a.vals[1], a.vals[2]])
  }

  function ArgsParts(a: Val): seq<seq<u8>>
    requires ArgsShape(a)
  {
    [Encode(Option(Quiet, Bytes(WitnessLock)), a.vals[0]), Encode(Option(WitnessInType, Bytes(Quiet)), a.vals[1]),
     Encode(Option(WitnessOutType, Bytes(Quiet)), a.vals[2])]
  }

  lemma {:induction false} ThreeJoin(p: seq<seq<u8>>)
    requires |p| == 3
    ensures Join(p) == p[0] + p[1] + p[2]
  {
    assert p[1..][1..] == [p[2]];
    JoinOne(p[2]);
    assert Join(p[1..]) == p[1] + Join([p[2]]);
  }

  lemma {:induction false} ArgsEncode(a: Val)
    requires ArgsShape(a)
    ensures Typed(WitnessArgs(), a) && Kept(WitnessArgs(), a) == HeadWords(ArgsParts(a))
    ensures Encode(WitnessArgs(), a) == WordBytes(HeadWords(ArgsParts(a))) + Join(ArgsParts(a))
  {
    ArgsShaped(a);
    var p := Parts(WitnessArgs(), a.vals, 0);
    forall i | 0 <= i < 3 ensures p[i] == ArgsParts(a)[i] {
      PartOf(WitnessArgs(), a, i);
      hide Encode, Typed;
    }
    assert p == ArgsParts(a);
    TableForm(WitnessArgs(), a);
  }

  lemma {:induction false} HeadOfThree(p: seq<seq<u8>>)
    requires |p| == 3 && 16 + |Join(p)| < U32_SIZE
    ensures HeadWords(p) == [16 + |p[0]| + |p[1]| + |p[2]|, 16, 16 + |p[0]|, 16 + |p[0]| + |p[1]|]
    ensures |Join(p)| == |p[0]| + |p[1]| + |p[2]|
  {
    ThreeJoin(p);
    ThreeJoin([p[0], p[1], []]);
    assert Join(p[..0]) == [];
    hide Join, HeadWords;
    JoinUpTo(p, 0);
    JoinUpTo(p, 1);
    HeadWordAt(p, 0);
    HeadWordAt(p, 1);
    HeadWordAt(p, 2);
    HeadWordAt(p, 3);
    assert p[..3] == p;
  }

  lemma {:induction false} WordsOfFour(a: u32, b: u32, c: u32, d: u32)
    ensures WordBytes([a, b, c, d]) == Pack(a) + Pack(b) + Pack(c) + Pack(d)
  {
    hide Pack;
    WordsCons(d, []);
    WordsCons(c, [d]);
    WordsCons(b, [c, d]);
    WordsCons(a, [b, c, d]);
  }

  /** The serialized signature of zeros. */
  lemma {:induction false} BlankBytes()
    ensures Encode(Option(Quiet, Bytes(WitnessLock)), BlankLock()) == ZERO_WITNESS && |ZERO_WITNESS| == 69
  {
    FourDigits(65);
    assert Pack(65) == [65, 0, 0, 0];
  }

  /** The header computed for the first witness is that of the arguments with a blank lock. */
  lemma {:induction false} NewWitnessIs(p: seq<seq<u8>>, q: seq<seq<u8>>)
    requires |p| == 3 && |q| == 3 && q[0] == ZERO_WITNESS && p[1] == q[1] && p[2] == q[2]
    requires 16 + |Join(p)| + 69 < U32_SIZE
    ensures 16 + |Join(q)| < U32_SIZE
    ensures NewWitness(HeadWords(p)) + q[1] + q[2] == Pack64(16 + |Join(q)|) + (WordBytes(HeadWords(q)) + Join(q))
  {
    BlankBytes();
    ThreeJoin(q);
    HeadOfThree(p);
    HeadOfThree(q);
    var n, e1, e2 := |p[0]|, |p[1]|, |p[2]|;
    var total := 16 + 69 + e1 + e2;
    ShiftIs(n, e1, e2);
    WordsOfFour(total, 16, 85, 85 + e1);
    hide *;
    assert HeadWords(q) == [total, 16, 85, 85 + e1];
    Regroup7(Pack64(total), WordBytes(HeadWords(q)), q[0], q[1], q[2]);
  }

  lemma {:induction false} Regroup7(len: seq<u8>, head: seq<u8>, a: seq<u8>, b: seq<u8>, c: seq<u8>)
    ensures len + head + a + b + c == len + (head + (a + b + c))
  {
  }

  /** The device's arithmetic on the header of the witness arguments. */
  lemma {:induction false} ShiftIs(n: nat, e1: nat, e2: nat)
    requires 16 + n + e1 + e2 + 69 < U32_SIZE
    ensures NewWitness([16 + n + e1 + e2, 16, 16 + n, 16 + n + e1])
         == Pack64(85 + e1 + e2) + (Pack(85 + e1 + e2) + Pack(16) + Pack(85) + Pack(85 + e1)) + ZERO_WITNESS
  {
    ShiftOne(16 + n + e1 + e2, n);
    ShiftOne(16 + n, n);
    ShiftOne(16 + n + e1, n);
    hide Pack, Pack64, Add32, Sub32, Zeros;
    assert Sub32(16 + n, 16) == n by { SubIs(16 + n, 16); }
  }

  lemma {:induction false} SubIs(a: u32, b: u32)
    requires b <= a
    ensures Sub32(a, b) == a - b
  {
  }

  lemma {:induction false} ShiftOne(w: u32, n: u32)
    requires n <= w && w + 69 < U32_SIZE
    ensures Sub32(Add32(w, 69), n) == w + 69 - n
  {
  }

  // ---------- Reading the first witness ----------

  lemma {:induction false} RewrittenChunk(t: Tag, bs: seq<u8>)
    ensures Rewritten(ChunkBytes(t, bs)) == (if t == WitnessInType || t == WitnessOutType then bs else [])
    decreases |bs|
  {
    if bs != [] {
      var ev := ChunkBytes(t, bs);
      assert ev[0] == Chunk(t, [bs[0]]) && ev[1..] == ChunkBytes(t, bs[1..]);
      RewrittenChunk(t, bs[1..]);
    }
  }

  /** What a log contributes to the rewritten first witness. */
  function Out1(ev: seq<Event>): seq<u8> {
    Rewritten(View(REWRITE, ev))
  }

  lemma {:induction false} OutPlus(a: seq<Event>, b: seq<Event>)
    ensures Out1(a + b) == Out1(a) + Out1(b)
  {
    ViewPlus(REWRITE, a, b);
    RewrittenPlus(View(REWRITE, a), View(REWRITE, b));
  }

  lemma {:induction false} OutOne(e: Event)
    ensures Out1([e]) == if e.Offsets? && e.tag == WitnessTable then NewWitness(e.words)
                         else if e.Chunk? && (e.tag == WitnessInType || e.tag == WitnessOutType) then e.bytes else []
  {
    OneView(REWRITE, e);
    if e.Chunk? {
      RewrittenChunk(e.tag, e.bytes);
    } else {
      assert [e][1..] == [];
      assert Rewritten([e]) == Rewritten1(e) + [];
    }
  }

  lemma {:induction false} OutTwo(a: Event, b: Event)
    ensures Out1([a, b]) == Out1([a]) + Out1([b])
  {
    assert [a, b] == [a] + [b];
    OutPlus([a], [b]);
  }

  /** A field none of whose callbacks is registered. */
  lemma {:induction false} LockOut(v: Val)
    requires Typed(Option(Quiet, Bytes(WitnessLock)), v) && |Encode(Option(Quiet, Bytes(WitnessLock)), v)| < U32_SIZE
    ensures Out1(Replay(Option(Quiet, Bytes(WitnessLock)), v)) == []
  {
    ReplayFrom(Option(Quiet, Bytes(WitnessLock)), v);
    assert Mute(REWRITE, Option(Quiet, Bytes(WitnessLock)));
  }

  /** A field all of whose bytes are passed on. */
  lemma {:induction false} TypeOut(t: Tag, v: Val)
    requires t == WitnessInType || t == WitnessOutType
    requires Typed(Option(t, Bytes(Quiet)), v) && |Encode(Option(t, Bytes(Quiet)), v)| < U32_SIZE
    ensures Out1(Replay(Option(t, Bytes(Quiet)), v)) == Encode(Option(t, Bytes(Quiet)), v)
  {
    var s := Option(t, Bytes(Quiet));
    NodeView(REWRITE, s, v);
    RewrittenChunk(t, Encode(s, v));
    assert ChunkBytes(t, Encode(s, v)) + [] == ChunkBytes(t, Encode(s, v));
  }

  lemma {:induction false} ThreeKids(s: Schema, v: Val)
    requires s.Table? && |s.fields| == 3 && Typed(s, v)
    requires Typed(s.fields[0], v.vals[0]) && Typed(s.fields[1], v.vals[1]) && Typed(s.fields[2], v.vals[2])
    ensures Within(s, v) == EnterEv(s, Kept(s, v), 3) + (Replay(s.fields[0], v.vals[0]) + InitEv(s.fields[1])
                            + (Replay(s.fields[1], v.vals[1]) + InitEv(s.fields[2]) + Replay(s.fields[2], v.vals[2])))
  {
    var c := Replay(s.fields[2], v.vals[2]);
    ThreeWithin(s, v);
    KidsStep(s, v.vals, 0);
    KidsStep(s, v.vals, 1);
    KidsStep(s, v.vals, 2);
    hide *;
    assert ReplayKids(s, v.vals, 2) == c + [] + [] == c;
  }

  lemma {:induction false} ThreeWithin(s: Schema, v: Val)
    requires s.Table? && |s.fields| == 3 && Typed(s, v)
    ensures v.Items? && |v.vals| == 3 && ReplayKids(s, v.vals, 3) == []
    ensures Within(s, v) == EnterEv(s, Kept(s, v), 3) + ReplayKids(s, v.vals, 0)
    ensures BetweenEv(s, 0) == InitEv(s.fields[1]) && BetweenEv(s, 1) == InitEv(s.fields[2]) && BetweenEv(s, 2) == []
    ensures Kid(s, 0) == s.fields[0] && Kid(s, 1) == s.fields[1] && Kid(s, 2) == s.fields[2]
  {
  }

  /** What the callbacks on the first witness pass to the hash. */
  lemma {:induction false} ArgsOut(a: Val)
    requires ArgsShape(a) && Typed(WitnessArgs(), a) && |Encode(WitnessArgs(), a)| < U32_SIZE
    ensures Out1(Replay(WitnessArgs(), a)) == NewWitness(HeadWords(ArgsParts(a))) + ArgsParts(a)[1] + ArgsParts(a)[2]
  {
    var s := WitnessArgs();
    var f0, f1, f2 := s.fields[0], s.fields[1], s.fields[2];
    ArgsEncode(a);
    FieldsOut(a);
    StartsOut(Quiet, WitnessLock, HeadWords(ArgsParts(a)));
    StartsOut(WitnessInType, Quiet, []);
    StartsOut(WitnessOutType, Quiet, []);
    ArgsWithin(a);
    ArgsEvents(a);
    EndOut(Encode(s, a));
    hide *;
    OutSeven(EnterEv(s, Kept(s, a), 3), Replay(f0, a.vals[0]), InitEv(f1), Replay(f1, a.vals[1]), InitEv(f2), Replay(f2, a.vals[2]),
             [Chunk(WitnessTable, Encode(s, a)), End(WitnessTable)]);
  }

  lemma {:induction false} OutSeven(enter: seq<Event>, r0: seq<Event>, i1: seq<Event>, r1: seq<Event>, i2: seq<Event>, r2: seq<Event>,
                                    end: seq<Event>)
    requires Out1(r0) == Out1(i1) == Out1(i2) == Out1(end) == []
    ensures Out1(enter + (r0 + i1 + (r1 + i2 + r2)) + end) == Out1(enter) + Out1(r1) + Out1(r2)
  {
    hide *;
    OutPlus(enter + (r0 + i1 + (r1 + i2 + r2)), end);
    OutPlus(enter, r0 + i1 + (r1 + i2 + r2));
    OutPlus(r0 + i1, r1 + i2 + r2);
    OutPlus(r0, i1);
    OutPlus(r1 + i2, r2);
    OutPlus(r1, i2);
  }

  lemma {:induction false} EndOut(bs: seq<u8>)
    ensures Out1([Chunk(WitnessTable, bs), End(WitnessTable)]) == []
  {
    OutOne(Chunk(WitnessTable, bs));
    OutOne(End(WitnessTable));
    OutTwo(Chunk(WitnessTable, bs), End(WitnessTable));
  }

  predicate ArgsFields(a: Val) {
    var f := WitnessArgs().fields;
    a.Items? && |a.vals| == 3 && Typed(f[0], a.vals[0]) && Typed(f[1], a.vals[1]) && Typed(f[2], a.vals[2])
  }

  lemma {:induction false} ArgsWithin(a: Val)
    requires ArgsShape(a) && Typed(WitnessArgs(), a)
    ensures var s := WitnessArgs();
            && s.Table? && |s.fields| == 3 && ArgsFields(a) && Typed(s.fields[0], a.vals[0]) && Typed(s.fields[1], a.vals[1])
            && Typed(s.fields[2], a.vals[2])
            && Within(s, a) == EnterEv(s, Kept(s, a), 3) + (Replay(s.fields[0], a.vals[0]) + InitEv(s.fields[1])
                 + (Replay(s.fields[1], a.vals[1]) + InitEv(s.fields[2]) + Replay(s.fields[2], a.vals[2])))
  {
    ThreeKids(WitnessArgs(), a);
  }

  lemma {:induction false} FieldsOut(a: Val)
    requires ArgsShape(a) && Typed(WitnessArgs(), a) && |Encode(WitnessArgs(), a)| < U32_SIZE
    ensures var f := WitnessArgs().fields;
            && ArgsFields(a)
            && Out1(Replay(f[0], a.vals[0])) == [] && Out1(Replay(f[1], a.vals[1])) == ArgsParts(a)[1]
            && Out1(Replay(f[2], a.vals[2])) == ArgsParts(a)[2]
  {
    var s := WitnessArgs();
    KidSmall(s, a, 0);
    KidSmall(s, a, 1);
    KidSmall(s, a, 2);
    assert Kid(s, 0) == s.fields[0] && Kid(s, 1) == s.fields[1] && Kid(s, 2) == s.fields[2];
    hide Encode, Replay, Out1, Typed;
    LockOut(a.vals[0]);
    TypeOut(WitnessInType, a.vals[1]);
    TypeOut(WitnessOutType, a.vals[2]);
  }

  lemma {:induction false} ArgsEvents(a: Val)
    requires ArgsShape(a) && Typed(WitnessArgs(), a)
    ensures var s := WitnessArgs();
            && EnterEv(s, Kept(s, a), 3) == [Start(Quiet), Start(WitnessLock)] + [Offsets(WitnessTable, Kept(s, a))]
            && InitEv(s.fields[1]) == [Start(WitnessInType), Start(Quiet)]
            && InitEv(s.fields[2]) == [Start(WitnessOutType), Start(Quiet)]
            && Replay(s, a) == Within(s, a) + [Chunk(WitnessTable, Encode(s, a)), End(WitnessTable)]
  {
  }

  lemma {:induction false} StartsOut(t: Tag, u: Tag, ws: seq<u32>)
    ensures Out1([Start(t), Start(u)]) == []
    ensures Out1([Start(t), Start(u)] + [Offsets(WitnessTable, ws)]) == NewWitness(ws)
  {
    OutTwo(Start(t), Start(u));
    OutOne(Start(t));
    OutOne(Start(u));
    OutOne(Offsets(WitnessTable, ws));
    OutPlus([Start(t), Start(u)], [Offsets(WitnessTable, ws)]);
  }

  // ---------- The witnesses ----------

  /** The witness arguments the first witness stands for: those it serializes, or no arguments at
      all if it is cut short, in particular if it is empty. */
  ghost predicate StandsFor(bs: seq<u8>, a: Val) {
    && ArgsShape(a) && Typed(WitnessArgs(), a)
    && (bs == Encode(WitnessArgs(), a) || (a == NoArgs() && Go(WitnessArgs(), NUM_MAX, Init(WitnessArgs()), bs).rv == INCOMPLETE))
  }

  lemma {:induction false} EmptyStands()
    ensures StandsFor([], NoArgs())
  {
    ArgsShaped(NoArgs());
  }

  function BlankEncode(a: Val): seq<u8>
    requires ArgsShape(a)
  {
    BlankShape(a);
    ArgsEncode(Blanked(a));
    Encode(WitnessArgs(), Blanked(a))
  }

  lemma {:induction false} BlankShape(a: Val)
    requires ArgsShape(a)
    ensures ArgsShape(Blanked(a)) && ArgsParts(Blanked(a))[0] == ZERO_WITNESS
    ensures ArgsParts(Blanked(a))[1] == ArgsParts(a)[1] && ArgsParts(Blanked(a))[2] == ArgsParts(a)[2]
  {
    BlankBytes();
    hide Encode;
  }

  /** A byte string preceded by its length in 64 bits. */
  function Lengthened(bs: seq<u8>): seq<u8> {
    Pack64(|bs|) + bs
  }

  /** The fixed witness hashed for a first witness that was cut short is that of no arguments. */
  lemma {:induction false} SelfWitness()
    ensures Lengthened(BlankEncode(NoArgs())) == SELF_WITNESS
  {
    var p := ArgsParts(Blanked(NoArgs()));
    BlankShape(NoArgs());
    ArgsEncode(Blanked(NoArgs()));
    SelfParts();
    SelfBytes();
    hide ArgsParts, Encode, HeadWords, Join, WordBytes, Pack64, Typed, ArgsShape;
    assert BlankEncode(NoArgs()) == WordBytes([85, 16, 85, 85]) + ZERO_WITNESS;
  }

  lemma {:induction false} SelfParts()
    ensures HeadWords(ArgsParts(Blanked(NoArgs()))) == [85, 16, 85, 85] && Join(ArgsParts(Blanked(NoArgs()))) == ZERO_WITNESS
  {
    BlankShape(NoArgs());
    BlankBytes();
    assert ArgsParts(NoArgs())[1] == [] && ArgsParts(NoArgs())[2] == [];
    hide ArgsParts;
    var p := ArgsParts(Blanked(NoArgs()));
    assert p == [ZERO_WITNESS, [], []];
    ThreeJoin(p);
    HeadOfThree(p);
    assert ZERO_WITNESS + [] + [] == ZERO_WITNESS;
  }

  lemma {:induction false} SelfBytes()
    ensures SELF_WITNESS == Pack64(85) + (WordBytes([85, 16, 85, 85]) + ZERO_WITNESS)
    ensures |WordBytes([85, 16, 85, 85]) + ZERO_WITNESS| == 85
  {
    Pack85();
    WordsOfFour(85, 16, 85, 85);
    hide Pack, Pack64, Zeros, WordBytes;
    var head: seq<u8> := [0x55, 0, 0, 0, 0x10, 0, 0, 0, 0x55, 0, 0, 0, 0x55, 0, 0, 0];
    assert WordBytes([85, 16, 85, 85]) == head;
    assert SELF_WITNESS == Pack64(85) + head + ZERO_WITNESS;
    assert Pack64(85) + head + ZERO_WITNESS == Pack64(85) + (head + ZERO_WITNESS);
  }

  lemma {:induction false} Pack85()
    ensures Pack(85) == [0x55, 0, 0, 0] && Pack(16) == [0x10, 0, 0, 0] && Pack64(85) == [0x55, 0, 0, 0, 0, 0, 0, 0]
  {
    FourDigits(85);
    FourDigits(16);
    FourDigits(0);
    assert Digits(85, 8) == [85] + Digits(0, 7);
    assert Digits(0, 7) == [0] + Digits(0, 6);
    assert Digits(0, 6) == [0] + Digits(0, 5);
    assert Digits(0, 5) == [0] + Digits(0, 4);
  }

  /** Reading a well-formed first witness absorbs its arguments with a blank lock. */
  lemma {:induction false} ReadArgs(d: Digest, a: Val)
    requires ArgsShape(a) && Typed(WitnessArgs(), a) && |Encode(WitnessArgs(), a)| + 69 < U32_SIZE
    requires d.args == Parsing(Init(WitnessArgs())) && !d.multisig
    ensures ReadFirst(d, Encode(WitnessArgs(), a))
         == Absorb(d, Lengthened(BlankEncode(a))).(args := Parsed, firstDone := true)
  {
    var bs := Encode(WitnessArgs(), a);
    WitnessRegular();
    Trips(WitnessArgs(), NUM_MAX, a, []);
    assert bs + [] == bs;
    RewriteAnti();
    ArgsOut(a);
    BlankWitness(a);
    PlainPass(d, Go(WitnessArgs(), NUM_MAX, Init(WitnessArgs()), bs).ev);
    hide Pass, Rewritten, View, Go, BlankEncode, NewWitness, HeadWords, ArgsParts, Encode, Typed, Regular, Replay;
  }

  lemma {:induction false} BlankWitness(a: Val)
    requires ArgsShape(a) && Typed(WitnessArgs(), a) && |Encode(WitnessArgs(), a)| + 69 < U32_SIZE
    ensures NewWitness(HeadWords(ArgsParts(a))) + ArgsParts(a)[1] + ArgsParts(a)[2] == Lengthened(BlankEncode(a))
  {
    var p, q := ArgsParts(a), ArgsParts(Blanked(a));
    ArgsEncode(a);
    BlankShape(a);
    ArgsEncode(Blanked(a));
    hide Encode, ArgsParts, Typed, Join, HeadWords;
    NewWitnessIs(p, q);
  }

  lemma {:induction false} BytesRun(H: Hash, d: Digest, bs: seq<u8>)
    requires |bs| + 4 < U32_SIZE
    ensures Run(H, d, Replay(Bytes(Witness), Blob(bs)))
         == Apply(H, if bs == [] then Apply(H, d, Size(Witness, |bs| + 4))
                     else Apply(H, Apply(H, d, Size(Witness, |bs| + 4)), Body(Witness, bs)), End(Witness))
  {
    var e := Size(Witness, |bs| + 4);
    hide Apply;
    if bs == [] {
      RunTwo(H, d, e, End(Witness));
      assert Replay(Bytes(Witness), Blob(bs)) == [e] + [] + [End(Witness)] == [e, End(Witness)];
    } else {
      RunTwo(H, d, e, Body(Witness, bs));
      RunTwo(H, Run(H, d, [e, Body(Witness, bs)]), End(Witness), End(Witness));
      RunPlus(H, d, [e, Body(Witness, bs)], [End(Witness)]);
      assert Replay(Bytes(Witness), Blob(bs)) == [e] + [Body(Witness, bs)] + [End(Witness)]
          == [e, Body(Witness, bs)] + [End(Witness)];
    }
  }

  /** The digest when the first witness is about to be read. */
  ghost predicate AtFirst(d: Digest) {
    d.isFirst && !d.firstDone && d.main == d.txHash && d.args == Parsing(Init(WitnessArgs())) && !d.multisig
  }

  /** The first witness has been read. */
  ghost predicate AfterFirst(d: Digest, d': Digest, a: Val)
    requires ArgsShape(a)
  {
    && d'.main == d.txHash + Lengthened(BlankEncode(a))
    && d'.txHash == d.txHash && d'.hardReject == d.hardReject
  }

  lemma {:induction false} FirstRun(H: Hash, d: Digest, bs: seq<u8>, a: Val)
    requires |bs| + 69 < U32_SIZE && StandsFor(bs, a) && AtFirst(d)
    ensures AfterFirst(d, Run(H, d, Replay(Bytes(Witness), Blob(bs))), a)
  {
    FirstIs(H, d, bs);
    if bs == Encode(WitnessArgs(), a) {
      FirstGood(H, d, a);
    } else {
      FirstCut(H, d, bs);
    }
  }

  lemma {:induction false} FirstIs(H: Hash, d: Digest, bs: seq<u8>)
    requires |bs| + 4 < U32_SIZE && d.isFirst
    ensures Run(H, d, Replay(Bytes(Witness), Blob(bs))) == OnEnd(H, if bs == [] then d else ReadFirst(d, bs), Witness)
  {
    BytesRun(H, d, bs);
    hide Run, Replay, ReadFirst;
  }

  lemma {:induction false} FirstGood(H: Hash, d: Digest, a: Val)
    requires ArgsShape(a) && Typed(WitnessArgs(), a) && |Encode(WitnessArgs(), a)| + 69 < U32_SIZE && AtFirst(d)
    ensures Encode(WitnessArgs(), a) != []
    ensures AfterFirst(d, OnEnd(H, ReadFirst(d, Encode(WitnessArgs(), a)), Witness), a)
  {
    ArgsEncode(a);
    AtFirstIs(d);
    assert Encode(WitnessArgs(), a) != [] by { hide HeadWords, ArgsParts, Join, Typed; }
    hide *;
    ReadArgs(d, a);
    GoodEnd(H, d, Lengthened(BlankEncode(a)));
    AfterIs(d, OnEnd(H, Absorb(d, Lengthened(BlankEncode(a))).(args := Parsed, firstDone := true), Witness), a);
  }

  lemma {:induction false} AtFirstIs(d: Digest)
    requires AtFirst(d)
    ensures d.args == Parsing(Init(WitnessArgs())) && d.main == d.txHash && !d.multisig
  {
    hide WitnessArgs;
  }

  lemma {:induction false} GoodEnd(H: Hash, d: Digest, bs: seq<u8>)
    ensures var r := OnEnd(H, Absorb(d, bs).(args := Parsed, firstDone := true), Witness);
            r.main == d.main + bs && r.txHash == d.txHash && r.hardReject == d.hardReject
  {
  }

  lemma {:induction false} AfterIs(d: Digest, r: Digest, a: Val)
    requires ArgsShape(a) && r.main == d.txHash + Lengthened(BlankEncode(a)) && r.txHash == d.txHash && r.hardReject == d.hardReject
    ensures AfterFirst(d, r, a)
  {
    hide Lengthened, BlankEncode, ArgsShape;
  }

  lemma {:induction false} FirstCut(H: Hash, d: Digest, bs: seq<u8>)
    requires AtFirst(d) && Go(WitnessArgs(), NUM_MAX, Init(WitnessArgs()), bs).rv == INCOMPLETE
    ensures AfterFirst(d, OnEnd(H, if bs == [] then d else ReadFirst(d, bs), Witness), NoArgs())
  {
    ReadCut(d, bs);
    var e := if bs == [] then d else ReadFirst(d, bs);
    assert e.isFirst && !e.firstDone && e.txHash == d.txHash && e.hardReject == d.hardReject by { hide ReadFirst, Go; }
    CutEnd(H, e);
    hide *;
    SelfAfter(d, OnEnd(H, e, Witness));
  }

  lemma {:induction false} CutEnd(H: Hash, e: Digest)
    requires e.isFirst && !e.firstDone
    ensures var r := OnEnd(H, e, Witness); r.main == e.txHash + SELF_WITNESS && r.txHash == e.txHash && r.hardReject == e.hardReject
  {
  }

  lemma {:induction false} SelfAfter(d: Digest, r: Digest)
    requires r.main == d.txHash + SELF_WITNESS && r.txHash == d.txHash && r.hardReject == d.hardReject
    ensures AfterFirst(d, r, NoArgs())
  {
    SelfWitness();
    assert AfterFirst(d, r, NoArgs()) by { hide BlankEncode, Lengthened; }
  }

  lemma {:induction false} ReadCut(d: Digest, bs: seq<u8>)
    requires d.args == Parsing(Init(WitnessArgs())) && Go(WitnessArgs(), NUM_MAX, Init(WitnessArgs()), bs).rv == INCOMPLETE
    ensures var e := ReadFirst(d, bs); e.isFirst == d.isFirst && e.firstDone == d.firstDone && e.txHash == d.txHash && e.hardReject == d.hardReject
  {
    PassKeeps(d, Go(WitnessArgs(), NUM_MAX, Init(WitnessArgs()), bs).ev);
    hide Go, View, Pass;
  }

  lemma {:induction false} LaterRun(H: Hash, d: Digest, bs: seq<u8>)
    requires |bs| + 4 < U32_SIZE && !d.isFirst
    ensures Run(H, d, Replay(Bytes(Witness), Blob(bs))) == Absorb(d, Lengthened(bs))
  {
    BytesRun(H, d, bs);
    assert d.main + Pack64(|bs|) + bs == d.main + (Pack64(|bs|) + bs);
    assert Pack64(|bs|) + [] == Pack64(|bs|);
  }

  /** The witnesses from the `k`-th on, each preceded by its length. */
  function Later(vals: seq<Val>, k: nat): seq<u8>
    requires k <= |vals| && forall i | 0 <= i < |vals| :: vals[i].Blob?
    decreases |vals| - k
  {
    if k == |vals| then [] else Lengthened(vals[k].bytes) + Later(vals, k + 1)
  }

  function WitnessVec(): Schema {
    BytesVec(Witnesses, Witness)
  }

  predicate Blobs(vals: seq<Val>) {
    forall i | 0 <= i < |vals| :: vals[i].Blob? && Typed(Bytes(Witness), vals[i]) && |vals[i].bytes| + 69 < U32_SIZE
  }

  lemma {:induction false} BetweenWitnesses(H: Hash, d: Digest, k: nat)
    ensures Run(H, d, BetweenEv(WitnessVec(), k)) == d.(isFirst := false)
  {
    RunTwo(H, d, Start(Witness), Index(Witnesses, k + 1));
    assert BetweenEv(WitnessVec(), k) == [Start(Witness), Index(Witnesses, k + 1)];
  }

  lemma {:induction false} LatersRun(H: Hash, d: Digest, vals: seq<Val>, k: nat)
    requires k <= |vals| && Blobs(vals) && !d.isFirst
    ensures Run(H, d, ReplayKids(WitnessVec(), vals, k)) == Absorb(d, Later(vals, k))
    decreases |vals| - k
  {
    if k == |vals| {
      assert d.main + [] == d.main;
    } else {
      var d1 := Absorb(d, Lengthened(vals[k].bytes));
      LaterStep(H, d, vals, k);
      assert !d1.isFirst && Later(vals, k) == Lengthened(vals[k].bytes) + Later(vals, k + 1);
      hide *;
      LatersRun(H, d1, vals, k + 1);
      AbsorbTwo(d, Lengthened(vals[k].bytes), Later(vals, k + 1));
    }
  }

  lemma {:induction false} LaterStep(H: Hash, d: Digest, vals: seq<Val>, k: nat)
    requires k < |vals| && Blobs(vals) && !d.isFirst
    ensures vals[k].Blob?
    ensures Run(H, d, ReplayKids(WitnessVec(), vals, k)) == Run(H, Absorb(d, Lengthened(vals[k].bytes)), ReplayKids(WitnessVec(), vals, k + 1))
  {
    var d1 := Absorb(d, Lengthened(vals[k].bytes));
    LaterRun(H, d, vals[k].bytes);
    BetweenWitnesses(H, d1, k);
    assert d1.(isFirst := false) == d1 by { hide Lengthened; }
    assert vals[k] == Blob(vals[k].bytes) && Kid(WitnessVec(), k) == Bytes(Witness);
    WitnessTypes(vals);
    hide *;
    KidRun(H, d, WitnessVec(), vals, k);
  }

  lemma {:induction false} EnterWitnesses(H: Hash, d: Digest, m: nat, nums: seq<u32>)
    requires !d.firstDone && !d.multisig
    ensures var e := Run(H, d, EnterEv(WitnessVec(), nums, m)); AtFirst(e) && e.txHash == d.txHash && e.hardReject == d.hardReject
  {
    assert EnterEv(WitnessVec(), nums, m) == [Start(Witness), Length(Witnesses, Low32(m))] + [Index(Witnesses, 0)];
    var d1 := Apply(H, Apply(H, d, Start(Witness)), Length(Witnesses, Low32(m)));
    assert AtFirst(Apply(H, d1, Index(Witnesses, 0))) && d1.txHash == d.txHash && d1.hardReject == d.hardReject;
    RunTwo(H, d, Start(Witness), Length(Witnesses, Low32(m)));
    RunTwo(H, d1, Index(Witnesses, 0), Index(Witnesses, 0));
    hide AtFirst, Apply, EnterEv;
    RunPlus(H, d, [Start(Witness), Length(Witnesses, Low32(m))], [Index(Witnesses, 0)]);
  }

  /** The digest signed: the transaction hash, the witness arguments with a blank lock, and the
      other witnesses. */
  function Signed(txHash: seq<u8>, vals: seq<Val>, a: Val): seq<u8>
    requires |vals| > 0 && ArgsShape(a) && forall i | 0 <= i < |vals| :: vals[i].Blob?
  {
    txHash + Lengthened(BlankEncode(a)) + Later(vals, 1)
  }

  lemma {:induction false} WitnessKids(H: Hash, d: Digest, vals: seq<Val>, a: Val)
    requires |vals| > 0 && Blobs(vals) && StandsFor(vals[0].bytes, a) && AtFirst(d)
    ensures var e := Run(H, d, ReplayKids(WitnessVec(), vals, 0));
            e.main == Signed(d.txHash, vals, a) && e.txHash == d.txHash && e.hardReject == d.hardReject
  {
    var d1 := Run(H, d, Replay(Bytes(Witness), vals[0]));
    assert vals[0] == Blob(vals[0].bytes) && Kid(WitnessVec(), 0) == Bytes(Witness);
    FirstRun(H, d, vals[0].bytes, a);
    BetweenWitnesses(H, d1, 0);
    LatersRun(H, d1.(isFirst := false), vals, 1);
    assert Run(H, d, ReplayKids(WitnessVec(), vals, 0)) == Run(H, d1.(isFirst := false), ReplayKids(WitnessVec(), vals, 1)) by {
      WitnessTypes(vals);
      hide *;
      KidRun(H, d, WitnessVec(), vals, 0);
    }
    hide Run, ReplayKids, Replay, BetweenEv, WitnessVec, Lengthened, Later, BlankEncode, StandsFor, ArgsShape, AtFirst, Blobs;
  }

  lemma {:induction false} WitnessTypes(vals: seq<Val>)
    requires Blobs(vals)
    ensures !WitnessVec().IsLeaf() && !WitnessVec().Bytes? && !WitnessVec().Struct? && !WitnessVec().Table?
    ensures forall i | 0 <= i < |vals| :: Typed(Kid(WitnessVec(), i), vals[i])
  {
  }

  lemma {:induction false} WitnessesRun(H: Hash, d: Digest, v: Val, a: Val)
    requires Typed(WitnessVec(), v) && v.vals != [] && Blobs(v.vals) && StandsFor(v.vals[0].bytes, a) && !d.firstDone && !d.multisig
    ensures var e := Run(H, d, Replay(WitnessVec(), v));
            e.final == H(Signed(d.txHash, v.vals, a)) && e.txHash == d.txHash && e.hardReject == d.hardReject
  {
    var d1 := Run(H, d, EnterEv(WitnessVec(), Kept(WitnessVec(), v), |v.vals|));
    EnterWitnesses(H, d, |v.vals|, Kept(WitnessVec(), v));
    WitnessKids(H, d1, v.vals, a);
    WitnessesWithin(H, d, v);
    var e := Run(H, d, Within(WitnessVec(), v));
    WitnessesEnd(H, d, v, e);
    hide *;
  }

  lemma {:induction false} WitnessesEnd(H: Hash, d: Digest, v: Val, e: Digest)
    requires Typed(WitnessVec(), v) && Run(H, d, Within(WitnessVec(), v)) == e
    ensures var r := Run(H, d, Replay(WitnessVec(), v)); r.final == H(e.main) && r.txHash == e.txHash && r.hardReject == e.hardReject
  {
    RunEnd(H, d, WitnessVec(), v, e);
  }

  lemma {:induction false} WitnessesWithin(H: Hash, d: Digest, v: Val)
    requires Typed(WitnessVec(), v) && v.vals != []
    ensures Run(H, d, Within(WitnessVec(), v))
         == Run(H, Run(H, d, EnterEv(WitnessVec(), Kept(WitnessVec(), v), |v.vals|)), ReplayKids(WitnessVec(), v.vals, 0))
  {
    assert Within(WitnessVec(), v) == EnterEv(WitnessVec(), Kept(WitnessVec(), v), |v.vals|) + ReplayKids(WitnessVec(), v.vals, 0);
    hide *;
    RunPlus(H, d, EnterEv(WitnessVec(), Kept(WitnessVec(), v), |v.vals|), ReplayKids(WitnessVec(), v.vals, 0));
  }
}
