/** What is signed when a multisig input is spent, however the message is cut. */
module MultisigDigest {
  import opened Words
  import opened Schema
  import opened Automaton
  import opened Views
  import opened Lifting
  import opened Encoding
  import opened RoundTrip
  import opened Chunking
  import opened Transaction
  import opened Shapes
  import opened Hashing
  import opened WitnessDigest
  import opened MultisigWitness
  import opened Signing
  import L = Ledger
  import M = MessageLog
  import B = ReservedByte
  import R = Rewrite
  import S = SignedDigest
  import D = RawDigest

  // ---------- The bytes of the witnesses ----------

  /** How far the witnesses have come: 0 before the first, 1 in it, 2 behind it, 3 in a later one, 4 behind
      them all; the bytes of the first, what the later ones add to the hash, and whether a callback came
      that does not belong there. */
  datatype Trail = Trail(stage: nat, bytes: seq<u8>, after: seq<u8>, odd: bool)

  const OUTSET := Trail(0, [], [], false)

  /** A callback that changes no hash state. */
  predicate Idle(e: Event) {
    match e
    case Leaf(t, _) => t != InputCount && t != Version && t != Since && t != PrevIndex
    case Chunk(t, bs) => t !in HASHING.chunk || bs == []
    case Body(t, bs) => t != Witness || bs == []
    case Start(t) => t != Input
    case End(t) => t != Source && t != Inputs && t != RawTx && t != Witness && t != Witnesses
    case Offsets(t, _) => t != RawTx
    case Length(t, _) => t != Inputs
    case Index(t, _) => t != Witnesses
    case Size(t, _) => t != Witness
  }

  function Sized(n: u32): seq<u8> {
    if n >= 4 then Pack64(n - 4) else []
  }

  function Track1(t: Trail, e: Event): Trail {
    var odd := t.(odd := true);
    if t.stage == 0 then
      if e.Index? && e.tag == Witnesses then if e.i == 0 then Trail(1, [], [], t.odd) else odd else t
    else if Idle(e) then t
    else
      match t.stage
      case 1 =>
        if e.Body? then t.(bytes := t.bytes + e.bytes) else if e == End(Witness) then t.(stage := 2) else if e.Size? then t else odd
      case 2 => if e.Index? && e.i > 0 then t.(stage := 3) else if e == End(Witness) || e.Size? then t else odd
      case 3 =>
        if e.Body? then t.(after := t.after + e.bytes)
        else if e.Size? then t.(after := t.after + Sized(e.size))
        else if e == End(Witness) || (e.Index? && e.i > 0) then t
        else if e == End(Witnesses) then t.(stage := 4) else odd
      case _ => odd
  }

  function Track(t: Trail, ev: seq<Event>): Trail
    decreases |ev|
  {
    if ev == [] then t else Track(Track1(t, ev[0]), ev[1..])
  }

  lemma {:induction false} TrackPlus(t: Trail, a: seq<Event>, b: seq<Event>)
    ensures Track(t, a + b) == Track(Track(t, a), b)
    decreases |a|
  {
    if a == [] {
      assert a + b == b;
    } else {
      assert (a + b)[1..] == a[1..] + b;
      hide Track1;
      TrackPlus(Track1(t, a[0]), a[1..], b);
    }
  }

  lemma {:induction false} TrackTwo(t: Trail, x: Event, y: Event)
    ensures Track(t, [x]) == Track1(t, x) && Track(t, [x, y]) == Track1(Track1(t, x), y)
  {
    assert [x][1..] == [] && [x, y][1..] == [y] && [y][1..] == [];
    assert Track(t, [x, y]) == Track(Track1(t, x), [y]) == Track(Track1(Track1(t, x), y), []);
    hide Track1;
  }

  lemma {:induction false} BytesTrack(t: Trail, u: Tag, bs: seq<u8>)
    ensures Track(t, BodyBytes(u, bs)) == Track1(t, Body(u, bs))
    decreases |bs|
  {
    if bs != [] {
      var ev := BodyBytes(u, bs);
      assert ev[0] == Body(u, [bs[0]]) && ev[1..] == BodyBytes(u, bs[1..]) && [bs[0]] + bs[1..] == bs;
      BytesTrack(Track1(t, ev[0]), u, bs[1..]);
      assert t.bytes + [bs[0]] + bs[1..] == t.bytes + bs && t.after + [bs[0]] + bs[1..] == t.after + bs;
    }
  }

  lemma {:induction false} ChunkTrack(t: Trail, u: Tag, bs: seq<u8>)
    ensures Track(t, ChunkBytes(u, bs)) == Track1(t, Chunk(u, bs))
    decreases |bs|
  {
    if bs != [] {
      var ev := ChunkBytes(u, bs);
      assert ev[0] == Chunk(u, [bs[0]]) && ev[1..] == ChunkBytes(u, bs[1..]);
      ChunkTrack(Track1(t, ev[0]), u, bs[1..]);
    }
  }

  lemma {:induction false} ViewTrack1(t: Trail, e: Event)
    ensures Track(t, View1(HASHING, e)) == Track1(t, e)
  {
    TrackTwo(t, e, e);
    if e.Body? { BytesTrack(t, e.tag, e.bytes); }
    if e.Chunk? { ChunkTrack(t, e.tag, e.bytes); }
    HiddenIdle(t, e);
    hide Track1, Idle;
  }

  lemma {:induction false} HiddenIdle(t: Trail, e: Event)
    ensures e.Body? || e.Chunk? || View1(HASHING, e) == [e] || (View1(HASHING, e) == [] && Track1(t, e) == t)
    ensures e.Chunk? ==> View1(HASHING, e) == ChunkBytes(e.tag, e.bytes) || (View1(HASHING, e) == [] && Track1(t, e) == t)
    ensures e.Body? ==> View1(HASHING, e) == BodyBytes(e.tag, e.bytes) || (View1(HASHING, e) == [] && Track1(t, e) == t)
  {
    hide Sized;
  }

  /** Only the hashing callbacks matter, however the message is cut. */
  lemma {:induction false} ViewTrack(t: Trail, ev: seq<Event>)
    ensures Track(t, View(HASHING, ev)) == Track(t, ev)
    decreases |ev|
  {
    if ev != [] {
      ViewTrack1(t, ev[0]);
      TrackPlus(t, View1(HASHING, ev[0]), View(HASHING, ev[1..]));
      hide Track1, View1;
      ViewTrack(Track1(t, ev[0]), ev[1..]);
    }
  }

  // ---------- Over a message ----------

  lemma {:induction false} BeforeTrack(t: Trail, ev: seq<Event>)
    requires t.stage == 0 && M.Before(ev)
    ensures Track(t, ev) == t
    decreases |ev|
  {
    if ev != [] {
      M.BeforeStep(ev);
      assert Track1(t, ev[0]) == t;
      BeforeTrack(t, ev[1..]);
    }
  }

  function Grown(t: Trail, bs: seq<u8>): Trail {
    t.(after := t.after + bs)
  }

  lemma {:induction false} GrownTwice(t: Trail, a: seq<u8>, b: seq<u8>)
    ensures Grown(Grown(t, a), b) == Grown(t, a + b) && Grown(t, []) == t == Track(t, []) && Grown(t, a).stage == t.stage
  {
    assert t.after + a + b == t.after + (a + b) && t.after + [] == t.after;
  }

  /** What the witnesses from the `k`-th on add. */
  lemma {:induction false} LaterTrack(t: Trail, vals: seq<Val>, k: nat)
    requires k <= |vals| && t.stage == 3 && M.Blobs(vals) && forall i | 0 <= i < |vals| :: vals[i].Blob? && |vals[i].bytes| + 4 < U32_SIZE
    ensures forall i | 0 <= i < |vals| :: Typed(Kid(WitnessVec(), i), vals[i])
    ensures Track(t, ReplayKids(WitnessVec(), vals, k)) == Grown(t, Later(vals, k))
    decreases |vals| - k
  {
    hide *;
    M.BlobsTyped(vals);
    M.WitnessesStep(vals, k);
    LaterIs(vals, k);
    if k < |vals| {
      var bs := vals[k].bytes;
      GrownTwice(t, Lengthened(bs), Later(vals, k + 1));
      LaterWitness(t, bs, k);
      LaterTrack(Grown(t, Lengthened(bs)), vals, k + 1);
      TrackPlus(t, M.WitnessLog(bs) + [Start(Witness), Index(Witnesses, k + 1)], ReplayKids(WitnessVec(), vals, k + 1));
    } else {
      GrownTwice(t, [], []);
    }
  }

  lemma {:induction false} LaterIs(vals: seq<Val>, k: nat)
    requires k <= |vals| && forall i | 0 <= i < |vals| :: vals[i].Blob?
    ensures Later(vals, k) == if k == |vals| then [] else Lengthened(vals[k].bytes) + Later(vals, k + 1)
  {
    hide Lengthened;
  }

  lemma {:induction false} LaterWitness(t: Trail, bs: seq<u8>, k: nat)
    requires t.stage == 3 && |bs| + 4 < U32_SIZE
    ensures Track(t, M.WitnessLog(bs) + [Start(Witness), Index(Witnesses, k + 1)]) == Grown(t, Lengthened(bs))
  {
    LogTrack(t, bs);
    var t1 := t.(after := t.after + Lengthened(bs));
    TrackTwo(t1, Start(Witness), Index(Witnesses, k + 1));
    hide Track, M.WitnessLog, Lengthened;
    TrackPlus(t, M.WitnessLog(bs), [Start(Witness), Index(Witnesses, k + 1)]);
  }

  /** The callbacks on a witness. */
  lemma {:induction false} LogTrack(t: Trail, bs: seq<u8>)
    requires |bs| + 4 < U32_SIZE
    ensures t.stage == 3 ==> Track(t, M.WitnessLog(bs)) == t.(after := t.after + Lengthened(bs))
    ensures t.stage == 1 ==> Track(t, M.WitnessLog(bs)) == t.(stage := 2, bytes := t.bytes + bs)
  {
    var size, end := Size(Witness, |bs| + 4), End(Witness);
    var body := if bs == [] then [] else [Body(Witness, bs)];
    var t1 := Track1(t, size);
    assert M.WitnessLog(bs) == [size] + body + [end] by { assert Low32(|bs| + 4) == |bs| + 4; }
    TrackPlus(t, [size] + body, [end]);
    TrackPlus(t, [size], body);
    TrackTwo(t, size, size);
    TrackTwo(t1, Body(Witness, bs), end);
    TrackTwo(Track(t1, body), end, end);
    assert Track(t1, body) == Track1(t1, Body(Witness, bs));
    assert t.after + Pack64(|bs|) + bs == t.after + Lengthened(bs);
    assert t.bytes + [] == t.bytes && t.after + Pack64(0) + [] == t.after + Pack64(0);
    hide M.WitnessLog, Pack64;
  }

  lemma {:induction false} EnterTrack(n: u32)
    ensures Track(OUTSET, [Start(Witness), Length(Witnesses, n), Index(Witnesses, 0)]) == Trail(1, [], [], false)
  {
    var a, b := [Start(Witness), Length(Witnesses, n)], Index(Witnesses, 0);
    assert [Start(Witness), Length(Witnesses, n), Index(Witnesses, 0)] == a + [b];
    TrackTwo(OUTSET, Start(Witness), Length(Witnesses, n));
    TrackTwo(OUTSET, b, b);
    hide Track;
    TrackPlus(OUTSET, a, [b]);
  }

  lemma {:induction false} FirstTrack(bs: seq<u8>)
    requires |bs| + 4 < U32_SIZE
    ensures Track(Trail(1, [], [], false), M.WitnessLog(bs) + [Start(Witness), Index(Witnesses, 1)]) == Trail(3, bs, [], false)
  {
    var t := Trail(1, [], [], false);
    LogTrack(t, bs);
    assert [] + bs == bs;
    TrackTwo(Trail(2, bs, [], false), Start(Witness), Index(Witnesses, 1));
    hide Track, M.WitnessLog;
    TrackPlus(t, M.WitnessLog(bs), [Start(Witness), Index(Witnesses, 1)]);
  }

  lemma {:induction false} EndTrack(t: Trail, bs: seq<u8>)
    ensures t.stage == 3 ==> Track(t, [Chunk(Witnesses, bs), End(Witnesses)]) == t.(stage := 4)
    ensures t.stage == 4 ==> Track(t, [Chunk(Quiet, bs), End(Quiet)]) == t
  {
    TrackTwo(t, Chunk(Witnesses, bs), End(Witnesses));
    TrackTwo(t, Chunk(Quiet, bs), End(Quiet));
  }

  /** What is known of the witnesses in the end. */
  lemma {:induction false} WitnessesTrack(v: Val)
    requires Typed(WitnessVec(), v) && v.Items? && v.vals != [] && forall i | 0 <= i < |v.vals| :: v.vals[i].Blob? && |v.vals[i].bytes| + 4 < U32_SIZE
    ensures Track(OUTSET, Replay(WitnessVec(), v)) == Trail(4, v.vals[0].bytes, Later(v.vals, 1), false)
  {
    var s := WitnessVec();
    M.WitnessesAre(v);
    var end := M.EndLog(s, Encode(s, v));
    assert s.tag == Witnesses && end == [Chunk(Witnesses, Encode(s, v)), End(Witnesses)] && 0 < |v.vals|;
    var n, bs := Low32(|v.vals|), v.vals[0].bytes;
    var t, t1 := Trail(3, bs, [], false), Trail(3, bs, Later(v.vals, 1), false);
    assert Grown(t, Later(v.vals, 1)) == t1 && t1.(stage := 4) == Trail(4, bs, Later(v.vals, 1), false) by {
      assert [] + Later(v.vals, 1) == Later(v.vals, 1);
    }
    assert t.stage == t1.stage == 3;
    hide *;
    M.WitnessesLog(v);
    var a, b := [Start(Witness), Length(Witnesses, n), Index(Witnesses, 0)], M.WitnessLog(bs);
    var c, rest := [Start(Witness), Index(Witnesses, 1)], ReplayKids(s, v.vals, 1);
    EnterTrack(n);
    FirstTrack(bs);
    LaterTrack(t, v.vals, 1);
    EndTrack(t1, Encode(s, v));
    TrackPlus(OUTSET, a + (b + c + rest), end);
    TrackPlus(OUTSET, a, b + c + rest);
    TrackPlus(Trail(1, [], [], false), b + c, rest);
  }

  lemma {:induction false} TxTrack(v: Val)
    requires Typed(AnnotatedTx(), v) && |Encode(AnnotatedTx(), v)| < U32_SIZE && v.Items? && |v.vals| == 5 && v.vals[4].Items? && v.vals[4].vals != []
    requires forall i | 0 <= i < |v.vals[4].vals| :: v.vals[4].vals[i].Blob? && |v.vals[4].vals[i].bytes| + 4 < U32_SIZE
    ensures Track(OUTSET, Replay(AnnotatedTx(), v)) == Trail(4, v.vals[4].vals[0].bytes, Later(v.vals[4].vals, 1), false)
  {
    assert OUTSET.stage == 0;
    var t := Trail(4, v.vals[4].vals[0].bytes, Later(v.vals[4].vals, 1), false);
    assert t.stage == 4;
    hide *;
    var pre := M.TxLog(v);
    var a, b := Replay(WitnessVec(), v.vals[4]), [Chunk(Quiet, Encode(AnnotatedTx(), v)), End(Quiet)];
    BeforeTrack(OUTSET, pre);
    WitnessesTrack(v.vals[4]);
    EndTrack(t, Encode(AnnotatedTx(), v));
    TrackPlus(OUTSET, pre + a, b);
    TrackPlus(OUTSET, pre, a);
  }

  // ---------- The state in a run ----------

  lemma {:induction false} IdleStays(H: Hash, d: Digest, e: Event)
    requires Idle(e) && (e.Body? ==> ReadFirst(d, []) == d)
    ensures Apply(H, d, e) == d
  {
    match e {
      case Leaf(t, bs) =>
      case Chunk(t, bs) => IdleChunk(d, t, bs);
      case Body(t, bs) => assert d.main + [] == d.main;
      case Start(t) =>
      case End(t) =>
      case _ => IdleInner(d, e);
    }
    hide ReadFirst, OnInner, OnChunk, Unpack;
  }

  lemma {:induction false} IdleChunk(d: Digest, t: Tag, bs: seq<u8>)
    requires t !in HASHING.chunk || bs == []
    ensures OnChunk(d, t, bs) == d
  {
    assert d.main + [] == d.main && d.source + [] == d.source;
  }

  lemma {:induction false} IdleInner(d: Digest, e: Event)
    requires Idle(e) && (e.Offsets? || e.Length? || e.Index? || e.Size?)
    ensures OnInner(d, e) == d
  {
    hide NewHeader, Pack, Pack64, Init, WitnessArgs;
  }

  /** The hash states before the first witness is read. */
  ghost predicate AtStart(d: Digest) {
    d.multisig && d.args == Parsing(Init(WitnessArgs())) && d.scan == NO_SCAN && d.main == d.txHash && d.isFirst && !d.firstDone
  }

  predicate Pieced(ps: seq<seq<u8>>, bytes: seq<u8>) {
    (forall i | 0 <= i < |ps| :: ps[i] != []) && Join(ps) == bytes
  }

  /** The first witness has come in these pieces. */
  ghost predicate ReadSo(H: Hash, d: Digest, t: Trail, d0: Digest, ps: seq<seq<u8>>) {
    var q := ReadPieces(d0, ps);
    && AtStart(d0) && Pieced(ps, t.bytes) && d0.txHash == d.txHash
    && match t.stage
       case 1 => d == q && t.after == []
       case 2 => d == OnEnd(H, q, Witness) && t.after == []
       case 3 => !d.isFirst && d.main == OnEnd(H, q, Witness).main + t.after
       case _ => !d.isFirst && d.final == H(OnEnd(H, q, Witness).main + t.after)
  }

  // The nested reader rests between two pieces.

  ghost predicate Rests(d: Digest) {
    d.args.Parsing? ==> Still(WitnessArgs(), NUM_MAX, d.args.st)
  }

  lemma {:induction false} ReadRests(d: Digest, bs: seq<u8>)
    requires Rests(d)
    ensures Rests(ReadFirst(d, bs)) && ReadFirst(d, bs).txHash == d.txHash && ReadFirst(d, bs).multisig == d.multisig
  {
    if d.args.Parsing? {
      var st := d.args.st;
      StillShaped(WitnessArgs(), NUM_MAX, st);
      var r := Go(WitnessArgs(), NUM_MAX, st, bs);
      PassKeeps(d, r.ev);
      hide Pass, Go, WitnessArgs, Still, Shaped;
      if r.rv == INCOMPLETE { GoStill(WitnessArgs(), NUM_MAX, st, bs); }
    }
  }

  lemma {:induction false} ReadNone(d: Digest)
    requires Rests(d) && d.multisig
    ensures ReadFirst(d, []) == d
  {
    if d.args.Parsing? {
      var st := d.args.st;
      var r := Go(WitnessArgs(), NUM_MAX, st, []);
      GoOnStill(WitnessArgs(), NUM_MAX, st, []);
      MultisigAnti();
      assert r.rv == INCOMPLETE && r.st == st && View(MULTISIG, r.ev) == View(MULTISIG, Fold(WitnessArgs(), NUM_MAX, st, []).ev) == [];
      PassParts(d, r.ev);
      assert d.main + [] + [] + [] == d.main;
      hide Pass, Go, WitnessArgs;
    }
  }

  lemma {:induction false} PiecesRest(d: Digest, ps: seq<seq<u8>>)
    requires Rests(d)
    ensures var r := ReadPieces(d, ps); Rests(r) && r.txHash == d.txHash && r.multisig == d.multisig
    decreases |ps|
  {
    hide Rests, ReadFirst;
    if ps != [] {
      ReadRests(d, ps[0]);
      PiecesRest(ReadFirst(d, ps[0]), ps[1..]);
    }
  }

  lemma {:induction false} OnePieceMore(d: Digest, ps: seq<seq<u8>>, bs: seq<u8>)
    ensures ReadPieces(d, ps + [bs]) == ReadFirst(ReadPieces(d, ps), bs)
    decreases |ps|
  {
    hide ReadFirst;
    if ps == [] {
      assert [] + [bs] == [bs] && [bs][1..] == [];
    } else {
      assert (ps + [bs])[1..] == ps[1..] + [bs];
      OnePieceMore(ReadFirst(d, ps[0]), ps[1..], bs);
    }
  }

  lemma {:induction false} JoinMore(ps: seq<seq<u8>>, bs: seq<u8>)
    ensures Join(ps + [bs]) == Join(ps) + bs
    decreases |ps|
  {
    if ps == [] {
      assert [] + [bs] == [bs] && [bs][1..] == [] && bs + [] == bs;
    } else {
      assert (ps + [bs])[1..] == ps[1..] + [bs];
      JoinMore(ps[1..], bs);
    }
  }

  lemma {:induction false} StartRests(d: Digest)
    requires AtStart(d)
    ensures Rests(d) && d.multisig
  {
    assert Still(WitnessArgs(), NUM_MAX, Init(WitnessArgs()));
  }

  ghost predicate Read(H: Hash, d: Digest, t: Trail) {
    exists d0, ps :: ReadSo(H, d, t, d0, ps)
  }

  // Stage by stage.

  /** In the first witness. */
  lemma {:induction false} InFirst(H: Hash, d: Digest, t: Trail, d0: Digest, ps: seq<seq<u8>>)
    requires t.stage == 1 && ReadSo(H, d, t, d0, ps)
    ensures Rests(d) && d.multisig && d.isFirst && d == ReadPieces(d0, ps) && ReadFirst(d, []) == d
  {
    StartRests(d0);
    PiecesRest(d0, ps);
    PiecesFirst(d0, ps);
    assert d == ReadPieces(d0, ps) && AtStart(d0) && d0.isFirst;
    hide ReadPieces, Rests, ReadFirst;
    ReadNone(d);
  }

  lemma {:induction false} FirstBody(H: Hash, d: Digest, t: Trail, d0: Digest, ps: seq<seq<u8>>, bs: seq<u8>)
    requires t.stage == 1 && ReadSo(H, d, t, d0, ps) && bs != []
    ensures ReadSo(H, ReadFirst(d, bs), t.(bytes := t.bytes + bs), d0, ps + [bs]) && ReadFirst(d, bs).txHash == d.txHash
  {
    InFirst(H, d, t, d0, ps);
    ReadRests(d, bs);
    OnePieceMore(d0, ps, bs);
    JoinMore(ps, bs);
    hide ReadFirst, ReadPieces, Join, AtStart, OnEnd, Rests;
  }

  lemma {:induction false} FirstEnd(H: Hash, d: Digest, t: Trail, d0: Digest, ps: seq<seq<u8>>)
    requires t.stage == 1 && ReadSo(H, d, t, d0, ps)
    ensures ReadSo(H, OnEnd(H, d, Witness), t.(stage := 2), d0, ps) && OnEnd(H, d, Witness).txHash == d.txHash
  {
    assert OnEnd(H, d, Witness).txHash == d.txHash;
    hide OnEnd, ReadPieces, Pieced, AtStart;
  }

  lemma {:induction false} StepFirst(H: Hash, d: Digest, t: Trail, e: Event)
    requires t.stage == 1 && !Track1(t, e).odd && Read(H, d, t)
    ensures var r := Apply(H, d, e); r.txHash == d.txHash && Read(H, r, Track1(t, e))
  {
    var d0, ps :| ReadSo(H, d, t, d0, ps);
    InFirst(H, d, t, d0, ps);
    hide ReadPieces, ReadFirst, Rests, ReadSo, OnLeaf, OnChunk, NewHeader, Pack, Pack64;
    if Idle(e) {
      IdleStays(H, d, e);
    } else if e.Body? {
      FirstBody(H, d, t, d0, ps, e.bytes);
    } else if e.End? {
      FirstEnd(H, d, t, d0, ps);
    }
  }

  lemma {:induction false} PiecesFirst(d: Digest, ps: seq<seq<u8>>)
    ensures ReadPieces(d, ps).isFirst == d.isFirst
    decreases |ps|
  {
    hide ReadFirst;
    if ps != [] {
      ReadKeeps(d, ps[0]);
      PiecesFirst(ReadFirst(d, ps[0]), ps[1..]);
    }
  }

  lemma {:induction false} EndTwice(H: Hash, q: Digest)
    ensures var d := OnEnd(H, q, Witness);
            OnEnd(H, d, Witness) == d && d.isFirst == q.isFirst && d.multisig == q.multisig && d.txHash == q.txHash && (Rests(q) ==> Rests(d))
  {
    hide Still, WitnessArgs;
  }

  /** Behind the first witness: what has been read of it stays. */
  lemma {:induction false} InSecond(H: Hash, d: Digest, t: Trail, d0: Digest, ps: seq<seq<u8>>)
    requires t.stage == 2 && ReadSo(H, d, t, d0, ps)
    ensures OnEnd(H, d, Witness) == d && d.isFirst && ReadFirst(d, []) == d && t.after == []
    ensures var r := d.(isFirst := false); ReadSo(H, r, t.(stage := 3), d0, ps) && r.txHash == d.txHash
  {
    var q := ReadPieces(d0, ps);
    StartRests(d0);
    PiecesRest(d0, ps);
    PiecesFirst(d0, ps);
    assert d == OnEnd(H, q, Witness) && AtStart(d0) && d0.isFirst && t.after == [];
    assert d.main + [] == d.main;
    EndTwice(H, q);
    hide ReadPieces, Rests, ReadFirst, OnEnd, AtStart, Pieced;
    ReadNone(d);
  }

  /** What belongs behind the first witness. */
  lemma {:induction false} SecondTrack(t: Trail, e: Event)
    requires t.stage == 2 && !Track1(t, e).odd
    ensures var r := Track1(t, e);
            || (r == t && (Idle(e) || e == End(Witness) || (e.Size? && e.tag == Witness)))
            || (e.Index? && e.tag == Witnesses && e.i > 0 && r == t.(stage := 3))
  {
  }

  lemma {:induction false} SecondApply(H: Hash, d: Digest, e: Event)
    requires d.isFirst
    ensures e.Size? && e.tag == Witness ==> Apply(H, d, e) == d
    ensures e.Index? && e.tag == Witnesses && e.i > 0 ==> Apply(H, d, e) == d.(isFirst := false)
    ensures e.End? ==> Apply(H, d, e) == OnEnd(H, d, e.tag)
  {
    hide OnEnd, Pack64, Init, WitnessArgs;
  }

  lemma {:induction false} StepSecond(H: Hash, d: Digest, t: Trail, e: Event)
    requires t.stage == 2 && !Track1(t, e).odd && Read(H, d, t)
    ensures var r := Apply(H, d, e); r.txHash == d.txHash && Read(H, r, Track1(t, e))
  {
    var d0, ps :| ReadSo(H, d, t, d0, ps);
    hide Track1, Idle, Apply, ReadPieces, ReadFirst, ReadSo, OnEnd;
    SecondTrack(t, e);
    InSecond(H, d, t, d0, ps);
    SecondApply(H, d, e);
    if Idle(e) { IdleStays(H, d, e); }
  }

  /** In a later witness: its bytes are added. */
  lemma {:induction false} ThirdMore(H: Hash, d: Digest, t: Trail, d0: Digest, ps: seq<seq<u8>>, bs: seq<u8>)
    requires t.stage == 3 && ReadSo(H, d, t, d0, ps)
    ensures ReadSo(H, Absorb(d, bs), Grown(t, bs), d0, ps)
  {
    var q := OnEnd(H, ReadPieces(d0, ps), Witness);
    assert q.main + t.after + bs == q.main + (t.after + bs);
    hide ReadPieces, AtStart, Pieced, OnEnd;
  }

  lemma {:induction false} WitnessesEnd(H: Hash, d: Digest)
    ensures OnEnd(H, d, Witnesses) == d.(final := H(d.main))
  {
  }

  lemma {:induction false} ThirdEnd(H: Hash, d: Digest, t: Trail, d0: Digest, ps: seq<seq<u8>>)
    requires t.stage == 3 && ReadSo(H, d, t, d0, ps)
    ensures ReadSo(H, OnEnd(H, d, Witnesses), t.(stage := 4), d0, ps) && OnEnd(H, d, Witnesses).txHash == d.txHash
  {
    hide ReadPieces, AtStart, Pieced, OnEnd;
    WitnessesEnd(H, d);
  }

  lemma {:induction false} InThird(H: Hash, d: Digest, t: Trail, d0: Digest, ps: seq<seq<u8>>)
    requires t.stage == 3 && ReadSo(H, d, t, d0, ps)
    ensures !d.isFirst && OnEnd(H, d, Witness) == d && d.(isFirst := false) == d
  {
    assert !d.isFirst by { hide ReadPieces, AtStart, Pieced, OnEnd; }
    hide ReadSo;
  }

  /** What belongs into a later witness. */
  lemma {:induction false} ThirdTrack(t: Trail, e: Event)
    requires t.stage == 3 && !Track1(t, e).odd
    ensures var r := Track1(t, e);
            || (r == t && (Idle(e) || e == End(Witness) || (e.Index? && e.tag == Witnesses && e.i > 0)))
            || (e.Body? && e.tag == Witness && r == Grown(t, e.bytes)) || (e.Size? && e.tag == Witness && r == Grown(t, Sized(e.size)))
            || (e == End(Witnesses) && r == t.(stage := 4))
  {
    hide Sized;
  }

  lemma {:induction false} StepThird(H: Hash, d: Digest, t: Trail, e: Event)
    requires t.stage == 3 && !Track1(t, e).odd && Read(H, d, t)
    ensures var r := Apply(H, d, e); r.txHash == d.txHash && Read(H, r, Track1(t, e))
  {
    var d0, ps :| ReadSo(H, d, t, d0, ps);
    var bs := if e.Body? then e.bytes else if e.Size? then Sized(e.size) else [];
    ThirdTrack(t, e);
    InThird(H, d, t, d0, ps);
    ThirdMore(H, d, t, d0, ps, bs);
    ThirdEnd(H, d, t, d0, ps);
    IdleLater(H, d, e);
    ThirdApply(H, d, e);
    assert Absorb(d, bs).txHash == d.txHash;
    hide ReadPieces, ReadFirst, ReadSo, Apply, Sized, Track1, Idle, Grown, OnEnd, Absorb;
  }

  lemma {:induction false} IdleLater(H: Hash, d: Digest, e: Event)
    requires !d.isFirst
    ensures Idle(e) ==> Apply(H, d, e) == d
  {
    if e.Body? {
      assert d.main + [] == d.main;
    } else if Idle(e) {
      IdleStays(H, d, e);
    }
    hide OnLeaf, OnChunk, OnEnd, OnInner;
  }

  lemma {:induction false} ThirdApply(H: Hash, d: Digest, e: Event)
    requires !d.isFirst
    ensures e.Body? && e.tag == Witness ==> Apply(H, d, e) == Absorb(d, e.bytes)
    ensures e.Size? && e.tag == Witness ==> Apply(H, d, e) == Absorb(d, Sized(e.size))
    ensures e.Index? && e.tag == Witnesses && e.i > 0 ==> Apply(H, d, e) == d.(isFirst := false)
    ensures e.End? ==> Apply(H, d, e) == OnEnd(H, d, e.tag)
  {
    assert d.main + [] == d.main;
    hide OnEnd, Pack64, Init, WitnessArgs;
  }

  lemma {:induction false} StepLast(H: Hash, d: Digest, t: Trail, e: Event)
    requires t.stage >= 4 && !Track1(t, e).odd && Read(H, d, t)
    ensures var r := Apply(H, d, e); r.txHash == d.txHash && Read(H, r, Track1(t, e))
  {
    var d0, ps :| ReadSo(H, d, t, d0, ps);
    assert !d.isFirst;
    IdleLater(H, d, e);
    hide ReadSo, Apply;
  }

  /** Once the witnesses have begun, what is known of them stays known. */
  lemma {:induction false} StepRead(H: Hash, d: Digest, t: Trail, e: Event)
    requires t.stage > 0 && !Track1(t, e).odd && Read(H, d, t)
    ensures var r := Apply(H, d, e); r.txHash == d.txHash && Read(H, r, Track1(t, e))
  {
    hide Read, Apply, Track1;
    match t.stage {
      case 1 => StepFirst(H, d, t, e);
      case 2 => StepSecond(H, d, t, e);
      case 3 => StepThird(H, d, t, e);
      case _ => StepLast(H, d, t, e);
    }
  }

  // ---------- Beside a run without multisig inputs ----------

  /** Up to the witnesses the hash states are those of a run that knows of no multisig input; from then on
      they have the same transaction hash. */
  ghost predicate Twin(H: Hash, d: Desk, p: Digest, w: B.Watch, t: Trail) {
    w.odd || t.odd ||
      if t.stage == 0 then w.stage == 0 && d.digest.(multisig := false) == p && !p.isFirst && !p.firstDone && !p.flagged
      else w.stage > 0 && d.digest.txHash == p.txHash && (d.book.spent.multisig ==> d.digest.multisig && Read(H, d.digest, t))
  }

  lemma {:induction false} AbsorbCommutes(d: Digest, bs: seq<u8>)
    ensures Absorb(d, bs).(multisig := false) == Absorb(d.(multisig := false), bs)
  {
  }

  lemma {:induction false} CountCommutes(d: Digest, bs: seq<u8>)
    ensures OnLeaf(d, InputCount, bs).(multisig := false) == OnLeaf(d.(multisig := false), InputCount, bs)
  {
    hide Unpack;
  }

  lemma {:induction false} PlaceCommutes(d: Digest, bs: seq<u8>)
    ensures OnLeaf(d, PrevIndex, bs).(multisig := false) == OnLeaf(d.(multisig := false), PrevIndex, bs)
  {
  }

  lemma {:induction false} LeafIs(d: Digest, t: Tag, bs: seq<u8>)
    ensures t == Version || t == Since ==> OnLeaf(d, t, bs) == Absorb(d, bs)
    ensures t != Version && t != Since && t != InputCount && t != PrevIndex ==> OnLeaf(d, t, bs) == d
  {
    hide Unpack, Absorb;
  }

  lemma {:induction false} LeafCommutes(d: Digest, t: Tag, bs: seq<u8>)
    ensures OnLeaf(d, t, bs).(multisig := false) == OnLeaf(d.(multisig := false), t, bs)
  {
    hide OnLeaf, Absorb;
    CountCommutes(d, bs);
    PlaceCommutes(d, bs);
    AbsorbCommutes(d, bs);
    LeafIs(d, t, bs);
    LeafIs(d.(multisig := false), t, bs);
  }

  lemma {:induction false} SourceCommutes(d: Digest, bs: seq<u8>)
    ensures OnChunk(d, Source, bs).(multisig := false) == OnChunk(d.(multisig := false), Source, bs)
  {
  }

  lemma {:induction false} ChunkCommutes(d: Digest, t: Tag, bs: seq<u8>)
    ensures OnChunk(d, t, bs).(multisig := false) == OnChunk(d.(multisig := false), t, bs)
  {
    if t == Source {
      SourceCommutes(d, bs);
      hide OnChunk;
    } else {
      AbsorbCommutes(d, bs);
      hide Absorb;
    }
  }

  lemma {:induction false} BodyCommutes(d: Digest, t: Tag, bs: seq<u8>)
    requires !d.isFirst
    ensures OnBody(d, t, bs).(multisig := false) == OnBody(d.(multisig := false), t, bs)
  {
    AbsorbCommutes(d, bs);
    hide Absorb, ReadFirst;
  }

  lemma {:induction false} ClearCommutes(d: Digest)
    ensures d.(source := [], index := NO_INDEX).(multisig := false) == d.(multisig := false).(source := [], index := NO_INDEX)
  {
  }

  lemma {:induction false} SourceIs(H: Hash, d: Digest)
    ensures OnEnd(H, d, Source) == Absorb(d, H(d.source) + d.index).(source := [], index := NO_INDEX)
  {
    hide Absorb;
  }

  lemma {:induction false} SourceEnds(H: Hash, d: Digest)
    ensures OnEnd(H, d, Source).(multisig := false) == OnEnd(H, d.(multisig := false), Source)
  {
    var bs := H(d.source) + d.index;
    hide OnEnd, Absorb;
    SourceIs(H, d);
    SourceIs(H, d.(multisig := false));
    AbsorbCommutes(d, bs);
    ClearCommutes(Absorb(d, bs));
  }

  lemma {:induction false} InputsEnd(H: Hash, d: Digest)
    ensures OnEnd(H, d, Inputs).(multisig := false) == OnEnd(H, d.(multisig := false), Inputs)
  {
  }

  lemma {:induction false} WitnessEnds(H: Hash, d: Digest)
    requires !d.isFirst
    ensures OnEnd(H, d, Witness).(multisig := false) == OnEnd(H, d.(multisig := false), Witness)
  {
  }

  lemma {:induction false} EndCommutes(H: Hash, d: Digest, t: Tag)
    requires !d.isFirst
    ensures OnEnd(H, d, t).(multisig := false) == OnEnd(H, d.(multisig := false), t)
  {
    if t == Source {
      SourceEnds(H, d);
      hide OnEnd;
    } else if t == Inputs {
      InputsEnd(H, d);
      hide OnEnd;
    } else if t == Witness {
      WitnessEnds(H, d);
      hide OnEnd;
    } else {
      hide Absorb;
    }
  }

  lemma {:induction false} IndexCommutes(d: Digest, i: nat)
    ensures OnInner(d, Index(Witnesses, i)).(multisig := false) == OnInner(d.(multisig := false), Index(Witnesses, i))
  {
    hide Init, WitnessArgs;
  }

  lemma {:induction false} InnerCommutes(d: Digest, e: Event)
    requires e.Offsets? || e.Length? || e.Index? || e.Size?
    ensures OnInner(d, e).(multisig := false) == OnInner(d.(multisig := false), e)
  {
    if e.Index? {
      if e.tag == Witnesses { IndexCommutes(d, e.i); }
      hide Init, WitnessArgs;
    } else {
      var bs := if e.Offsets? then NewHeader(e.words, d.count) else if e.Length? then Pack(e.count) else if e.size >= 4 then Pack64(e.size - 4) else [];
      AbsorbCommutes(d, bs);
      hide NewHeader, Pack, Pack64, Init, WitnessArgs, Absorb;
    }
  }

  lemma {:induction false} Commutes(H: Hash, d: Digest, e: Event)
    requires !d.isFirst
    ensures Apply(H, d, e).(multisig := false) == Apply(H, d.(multisig := false), e)
  {
    match e {
      case Leaf(t, bs) => LeafCommutes(d, t, bs);
      case Chunk(t, bs) => ChunkCommutes(d, t, bs);
      case Body(t, bs) => BodyCommutes(d, t, bs);
      case End(t) => EndCommutes(H, d, t);
      case Start(_) =>
      case _ => InnerCommutes(d, e);
    }
    hide OnLeaf, OnChunk, OnBody, OnEnd, OnInner;
  }

  lemma {:induction false} LeafHash(d: Digest, t: Tag, bs: seq<u8>)
    ensures OnLeaf(d, t, bs).txHash == d.txHash && OnLeaf(d, t, bs).firstDone == d.firstDone
  {
    hide Unpack;
  }

  lemma {:induction false} ChunkHash(d: Digest, t: Tag, bs: seq<u8>)
    ensures OnChunk(d, t, bs).txHash == d.txHash && OnChunk(d, t, bs).firstDone == d.firstDone
  {
  }

  lemma {:induction false} BodyHash(d: Digest, t: Tag, bs: seq<u8>)
    ensures OnBody(d, t, bs).txHash == d.txHash && (!d.isFirst ==> OnBody(d, t, bs).firstDone == d.firstDone)
  {
    if d.args.Parsing? { PassKeeps(d, Go(WitnessArgs(), NUM_MAX, d.args.st, bs).ev); }
    hide Pass, Go, WitnessArgs;
  }

  lemma {:induction false} EndHash(H: Hash, d: Digest, t: Tag)
    ensures t != Inputs && t != RawTx ==> OnEnd(H, d, t).txHash == d.txHash
    ensures !d.isFirst && !d.firstDone ==> !OnEnd(H, d, t).firstDone
  {
  }

  lemma {:induction false} InnerHash(d: Digest, e: Event)
    ensures OnInner(d, e).txHash == d.txHash && OnInner(d, e).firstDone == d.firstDone
  {
    hide NewHeader, Pack, Pack64, Init, WitnessArgs;
  }

  /** What a callback leaves of the transaction hash, and of a first witness not begun. */
  lemma {:induction false} HashStays(H: Hash, d: Digest, e: Event)
    ensures e != End(Inputs) && e != End(RawTx) ==> Apply(H, d, e).txHash == d.txHash
    ensures !d.isFirst && !d.firstDone ==> !Apply(H, d, e).firstDone
  {
    match e {
      case Leaf(t, bs) => LeafHash(d, t, bs);
      case Chunk(t, bs) => ChunkHash(d, t, bs);
      case Body(t, bs) => BodyHash(d, t, bs);
      case End(t) => EndHash(H, d, t);
      case Start(_) =>
      case _ => InnerHash(d, e);
    }
    hide OnLeaf, OnChunk, OnBody, OnEnd, OnInner;
  }

  lemma {:induction false} TwinNext(H: Hash, k: L.Keys, d: Desk, p: Digest, w: B.Watch, t: Trail, e: Event)
    requires Twin(H, d, p, w, t) && !(e == End(RawTx) && L.Rejects(d.book))
    ensures Twin(H, Both(H, k, d, e), Apply(H, p, e), B.See1(w, e), Track1(t, e))
  {
    hide Both, Apply, Read;
    if !B.See1(w, e).odd && !Track1(t, e).odd {
      if t.stage > 0 {
        TwinLater(H, k, d, p, w, t, e);
      } else if e.Index? && e.tag == Witnesses {
        TwinFirst(H, k, d, p, w, t, e);
      } else {
        TwinEarly(H, k, d, p, w, t, e);
      }
    }
  }

  lemma {:induction false} InformedIs(d: Desk, e: Event)
    ensures var x := Informed(d, e);
            && x == d.digest.(multisig := d.book.spent.multisig, flagged := x.flagged)
            && (e != End(RawTx) || !L.Rejects(d.book) ==> x.flagged == (e != End(RawTx) && d.digest.flagged))
  {
    hide L.Rejects;
  }

  lemma {:induction false} TwinEarly(H: Hash, k: L.Keys, d: Desk, p: Digest, w: B.Watch, t: Trail, e: Event)
    requires Twin(H, d, p, w, t) && !w.odd && !t.odd && t.stage == 0 && !(e.Index? && e.tag == Witnesses) && !(e == End(RawTx) && L.Rejects(d.book))
    ensures Twin(H, Both(H, k, d, e), Apply(H, p, e), B.See1(w, e), Track1(t, e))
  {
    var x := Informed(d, e);
    InformedIs(d, e);
    B.BothIs(H, k, d, e);
    hide Informed, Both, L.Rejects, L.Apply;
    assert x.(multisig := false) == p;
    Commutes(H, x, e);
    HashStays(H, p, e);
    BitsStay(H, p, e);
    B.Untouched(H, p, e);
    hide Apply;
  }

  lemma {:induction false} TwinFirst(H: Hash, k: L.Keys, d: Desk, p: Digest, w: B.Watch, t: Trail, e: Event)
    requires Twin(H, d, p, w, t) && !w.odd && !t.odd && t.stage == 0 && e.Index? && e.tag == Witnesses && !Track1(t, e).odd
    ensures Twin(H, Both(H, k, d, e), Apply(H, p, e), B.See1(w, e), Track1(t, e))
  {
    var x := Informed(d, e);
    InformedIs(d, e);
    B.BothIs(H, k, d, e);
    B.MultisigSame(k, d.book, e);
    hide Informed, Both, L.Rejects, L.Apply;
    var r := Apply(H, x, e);
    StartIs(H, x, 0);
    StartIs(H, p, 0);
    hide Apply;
    if x.multisig {
      assert ReadPieces(r, []) == r && Join([]) == [];
      assert ReadSo(H, r, Trail(1, [], [], t.odd), r, []) by { hide Init, WitnessArgs; }
    }
  }

  lemma {:induction false} StartIs(H: Hash, d: Digest, i: nat)
    ensures var r := Apply(H, d, Index(Witnesses, 0));
            r.txHash == d.txHash && r.multisig == d.multisig && (d.multisig && !d.firstDone ==> AtStart(r))
  {
    hide Init, WitnessArgs;
  }

  lemma {:induction false} TwinLater(H: Hash, k: L.Keys, d: Desk, p: Digest, w: B.Watch, t: Trail, e: Event)
    requires Twin(H, d, p, w, t) && !w.odd && !t.odd && t.stage > 0 && !B.See1(w, e).odd && !Track1(t, e).odd
    ensures Twin(H, Both(H, k, d, e), Apply(H, p, e), B.See1(w, e), Track1(t, e))
  {
    var x := Informed(d, e);
    InformedIs(d, e);
    B.BothIs(H, k, d, e);
    LaterOnly(w, t, e);
    B.MultisigSame(k, d.book, e);
    hide Informed, Both, L.Rejects, L.Apply, Read, Track1, B.See1;
    HashStays(H, x, e);
    HashStays(H, p, e);
    BitsStay(H, x, e);
    if x.multisig {
      assert x == d.digest;
      StepRead(H, x, t, e);
    }
    hide Apply;
  }

  lemma {:induction false} LaterOnly(w: B.Watch, t: Trail, e: Event)
    requires t.stage > 0 && w.stage > 0 && !B.See1(w, e).odd && !Track1(t, e).odd
    ensures e != End(Inputs) && e != End(RawTx) && e != End(InputDatum) && Track1(t, e).stage > 0 && B.See1(w, e).stage > 0
  {
    hide Sized;
  }

  lemma {:induction false} TwinRun(H: Hash, k: L.Keys, d: Desk, p: Digest, w: B.Watch, t: Trail, ev: seq<Event>)
    requires Twin(H, d, p, w, t) && !L.Run(k, d.book, ev).shown.unsafe
    ensures Twin(H, RunBoth(H, k, d, ev), Run(H, p, ev), B.See(w, ev), Track(t, ev))
    decreases |ev|
  {
    hide Twin, Both, Apply, L.Apply, L.Rejects, Track1, B.See1;
    if ev != [] {
      var e := ev[0];
      FlagStays(k, d.book, e);
      FlagRuns(k, L.Apply(k, d.book, e), ev[1..]);
      TwinNext(H, k, d, p, w, t, e);
      B.BothIs(H, k, d, e);
      TwinRun(H, k, Both(H, k, d, e), Apply(H, p, e), B.See1(w, e), Track1(t, e), ev[1..]);
    }
  }

  // ---------- What is signed ----------

  /** The digest of a transaction whose multisig lock arrives in these pieces: that of the transaction hash,
      the first witness with its lock as the pieces leave it, and the other witnesses. */
  ghost predicate SignedAs(H: Hash, v: Val, a: Val, lock: seq<u8>, cuts: seq<seq<u8>>, d: Digest)
    requires IsHash(H) && S.Signable(v, a) && a.vals[0] == Some(Blob(lock)) && Multisig(lock)
  {
    var kept := KeptAll(NO_SCAN, cuts);
    S.DigestKnown(H, v, a);
    && Join(cuts) == lock && |kept| == |lock| && Typed(WitnessArgs(), Relocked(a, kept))
    && d.txHash == H(Encode(RawTransaction(), D.PlainRaw(H, v.vals[3])))
    && d.final == H(d.txHash + Lengthened(Encode(WitnessArgs(), Relocked(a, kept))) + Later(v.vals[4].vals, 1))
    && (kept == Unsign(lock) <==> forall i | SweptTo(cuts, 0, ScriptOf(lock)) <= i < |lock| :: lock[i] == 0)
  }

  lemma {:induction false} FreshTwin(H: Hash)
    ensures Twin(H, FreshDesk(), FRESH, B.UNSEEN, OUTSET)
  {
    hide Init, WitnessArgs;
  }

  /** What an unflagged transaction with a multisig input has signed, however it is cut. */
  lemma {:induction false} MultisigSigned(H: Hash, k: L.Keys, v: Val, a: Val, lock: seq<u8>, chunks: seq<seq<u8>>, ev: seq<Event>)
    requires IsHash(H) && S.Signable(v, a) && a.vals[0] == Some(Blob(lock)) && Multisig(lock)
    requires chunks != [] && Join(chunks) == Encode(AnnotatedTx(), v)
    requires Same(AnnotatedTx(), Feed(AnnotatedTx(), NUM_MAX, Init(AnnotatedTx()), chunks).ev, ev)
    ensures var d := RunBoth(H, k, FreshDesk(), ev);
            !d.book.shown.unsafe && d.book.spent.multisig ==> exists cuts :: SignedAs(H, v, a, lock, cuts, d.digest)
  {
    var d := RunBoth(H, k, FreshDesk(), ev);
    S.SignableIs(v, a);
    hide *;
    if !d.book.shown.unsafe && d.book.spent.multisig {
      HashedSame(v, chunks, ev);
      B.WatchedSame(v, chunks, ev);
      TwinAtEnd(H, k, v, a, ev);
      ReadAtEnd(H, v, a, lock, Run(H, FRESH, Replay(AnnotatedTx(), v)), d.digest);
    }
  }

  lemma {:induction false} HashedSame(v: Val, chunks: seq<seq<u8>>, ev: seq<Event>)
    requires Typed(AnnotatedTx(), v) && |Encode(AnnotatedTx(), v)| < U32_SIZE && chunks != [] && Join(chunks) == Encode(AnnotatedTx(), v)
    requires Same(AnnotatedTx(), Feed(AnnotatedTx(), NUM_MAX, Init(AnnotatedTx()), chunks).ev, ev)
    ensures View(HASHING, ev) == View(HASHING, Replay(AnnotatedTx(), v))
  {
    MessagesRegular();
    FeedTrip(AnnotatedTx(), NUM_MAX, v, chunks);
    R.MessageAnti();
    hide Encode, Typed, Replay, View, Feed, AnnotatedTx, Anti, Join, Regular;
  }

  /** The trail of a whole message. */
  function TrailOf(vals: seq<Val>): Trail
    requires vals != [] && forall i | 0 <= i < |vals| :: vals[i].Blob?
  {
    Trail(4, vals[0].bytes, Later(vals, 1), false)
  }

  lemma {:induction false} WitnessFacts(v: Val, a: Val)
    requires S.Signable(v, a)
    ensures Typed(AnnotatedTx(), v) && |Encode(AnnotatedTx(), v)| < U32_SIZE && v.Items? && |v.vals| == 5 && v.vals[4].Items? && v.vals[4].vals != []
    ensures forall i | 0 <= i < |v.vals[4].vals| :: v.vals[4].vals[i].Blob? && |v.vals[4].vals[i].bytes| + 4 < U32_SIZE
    ensures ArgsShape(a) && StandsFor(v.vals[4].vals[0].bytes, a) && |v.vals[4].vals[0].bytes| < U32_SIZE
  {
    S.LastFacts(v, a);
    hide AnnotatedTx, Typed, Encode, StandsFor, ArgsShape, WitnessVec, AnnotatedRaw;
  }

  lemma {:induction false} TwinAtEnd(H: Hash, k: L.Keys, v: Val, a: Val, ev: seq<Event>)
    requires IsHash(H) && S.Signable(v, a) && View(HASHING, ev) == View(HASHING, Replay(AnnotatedTx(), v))
    requires View(B.WATCHING, ev) == View(B.WATCHING, Replay(AnnotatedTx(), v))
    requires var d := RunBoth(H, k, FreshDesk(), ev); !d.book.shown.unsafe && d.book.spent.multisig
    ensures S.TxShape(v) && S.WitnessesKnown(v)
    ensures var d, p := RunBoth(H, k, FreshDesk(), ev), Run(H, FRESH, Replay(AnnotatedTx(), v));
            d.digest.txHash == p.txHash && Read(H, d.digest, TrailOf(v.vals[4].vals))
  {
    S.DigestKnown(H, v, a);
    WitnessFacts(v, a);
    var d, p, ws := RunBoth(H, k, FreshDesk(), ev), Run(H, FRESH, Replay(AnnotatedTx(), v)), v.vals[4].vals;
    assert TrailOf(ws) == Trail(4, ws[0].bytes, Later(ws, 1), false);
    hide *;
    S.FreshCalm();
    RunView(H, FRESH, ev);
    RunView(H, FRESH, Replay(AnnotatedTx(), v));
    TxTrack(v);
    ViewTrack(OUTSET, ev);
    ViewTrack(OUTSET, Replay(AnnotatedTx(), v));
    B.TxSee(v);
    B.ViewSee(B.UNSEEN, ev);
    B.ViewSee(B.UNSEEN, Replay(AnnotatedTx(), v));
    B.WatchIs(ws);
    FreshTwin(H);
    DeskIs();
    Apart(H, k, FreshDesk(), ev);
    TwinRun(H, k, FreshDesk(), FRESH, B.UNSEEN, OUTSET, ev);
    TwinDone(H, d, p, B.WatchOf(ws), TrailOf(ws));
  }

  lemma {:induction false} TwinDone(H: Hash, d: Desk, p: Digest, w: B.Watch, t: Trail)
    requires Twin(H, d, p, w, t) && !w.odd && !t.odd && t.stage > 0 && d.book.spent.multisig
    ensures d.digest.txHash == p.txHash && Read(H, d.digest, t)
  {
    hide Read;
  }

  /** All has been read. */
  lemma {:induction false} AllRead(H: Hash, d: Digest, t: Trail) returns (d0: Digest, ps: seq<seq<u8>>)
    requires t.stage == 4 && Read(H, d, t)
    ensures d0.multisig && d0.args == Parsing(Init(WitnessArgs())) && d0.scan == NO_SCAN && d0.main == d.txHash && Pieced(ps, t.bytes)
    ensures d.final == H(OnEnd(H, ReadPieces(d0, ps), Witness).main + t.after)
  {
    d0, ps :| ReadSo(H, d, t, d0, ps);
    hide OnEnd, ReadPieces, Pieced, Init, WitnessArgs;
  }

  lemma {:induction false} TrailIs(v: Val, a: Val)
    requires S.Signable(v, a) && S.WitnessesKnown(v) && ArgsShape(a) && a.vals[0].Some?
    ensures var ws, t := v.vals[4].vals, TrailOf(v.vals[4].vals);
            t.stage == 4 && t.after == Later(ws, 1) && t.bytes == Encode(WitnessArgs(), a) && Typed(WitnessArgs(), a) && |t.bytes| < U32_SIZE
  {
    WitnessFacts(v, a);
    hide S.Signable, S.WitnessesKnown, Encode, Typed, Later, Go;
  }

  lemma {:induction false} ReadAtEnd(H: Hash, v: Val, a: Val, lock: seq<u8>, p: Digest, d: Digest)
    requires IsHash(H) && S.Signable(v, a) && a.vals[0] == Some(Blob(lock)) && Multisig(lock) && S.TxShape(v) && S.WitnessesKnown(v)
    requires p == Run(H, FRESH, Replay(AnnotatedTx(), v)) && d.txHash == p.txHash && Read(H, d, TrailOf(v.vals[4].vals))
    ensures exists cuts :: SignedAs(H, v, a, lock, cuts, d)
  {
    var t := TrailOf(v.vals[4].vals);
    WitnessFacts(v, a);
    TrailIs(v, a);
    hide *;
    var d0, ps := AllRead(H, d, t);
    PiecesSome(a, ps);
    S.MessageRun(H, v, a);
    MultisigHashed(d0, a, lock, ps);
    SignedNow(H, v, a, lock, LockCuts(Init(WitnessArgs()), ps), p, d, ReadPieces(d0, ps));
  }

  lemma {:induction false} PiecesSome(a: Val, ps: seq<seq<u8>>)
    requires ArgsShape(a) && Typed(WitnessArgs(), a) && |Encode(WitnessArgs(), a)| < U32_SIZE && Pieced(ps, Encode(WitnessArgs(), a))
    ensures ps != [] && (forall i | 0 <= i < |ps| :: ps[i] != []) && Join(ps) == Encode(WitnessArgs(), a)
  {
    assert Join([]) == [];
    hide Encode, Typed, B.FirstRead, WitnessArgs, Join;
    B.LockSeenIs(a);
    B.StartScanning(FRESH, false);
  }

  lemma {:induction false} DigestedHash(H: Hash, v: Val, a: Val, p: Digest)
    requires IsHash(H) && S.Signable(v, a) && S.Digested(H, v, a, p)
    ensures S.TxShape(v) && D.RawShape(v.vals[3]) && Typed(RawTransaction(), D.PlainRaw(H, v.vals[3])) && S.WitnessesKnown(v)
    ensures p.txHash == H(Encode(RawTransaction(), D.PlainRaw(H, v.vals[3])))
  {
    S.DigestKnown(H, v, a);
    hide S.Signable, S.TxShape, D.RawShape, Encode, Typed, RawTransaction, D.PlainRaw, S.WitnessesKnown, Blanked, WitnessArgs, Later, Lengthened;
  }

  lemma {:induction false} EndDone(H: Hash, q: Digest)
    requires q.firstDone
    ensures OnEnd(H, q, Witness) == q
  {
  }

  lemma {:induction false} SignedNow(H: Hash, v: Val, a: Val, lock: seq<u8>, cuts: seq<seq<u8>>, p: Digest, d: Digest, q: Digest)
    requires IsHash(H) && S.Signable(v, a) && a.vals[0] == Some(Blob(lock)) && Multisig(lock) && S.Digested(H, v, a, p)
    requires S.WitnessesKnown(v) && d.txHash == p.txHash && d.final == H(OnEnd(H, q, Witness).main + Later(v.vals[4].vals, 1))
    requires Join(cuts) == lock && |KeptAll(NO_SCAN, cuts)| == |lock| && q.firstDone
    requires ArgsShape(a) && Typed(WitnessArgs(), Relocked(a, KeptAll(NO_SCAN, cuts)))
    requires q.main == d.txHash + Lengthened(Encode(WitnessArgs(), Relocked(a, KeptAll(NO_SCAN, cuts))))
    ensures SignedAs(H, v, a, lock, cuts, d)
  {
    hide OnEnd, KeptAll, Encode, Typed, WitnessArgs, SweptTo, Unsign, ScriptOf, Relocked, Lengthened, Later, RawTransaction, D.PlainRaw, Join, S.Signable,
      S.WitnessesKnown, S.TxShape, D.RawShape, Multisig, S.Digested, ArgsShape, IsHash;
    DigestedHash(H, v, a, p);
    EndDone(H, q);
    SignaturesZeroed(lock, cuts);
  }
}
