/** When a multisig script is refused for its reserved byte, however the message is cut. */
module ReservedByte {
  import opened Words
  import opened Schema
  import opened Automaton
  import opened Views
  import opened Lifting
  import opened Encoding
  import opened RoundTrip
  import opened Chunking
  import opened Transaction
  import opened Shapes
  import opened Hashing
  import opened MultisigWitness
  import opened Signing
  import L = Ledger
  import M = MessageLog
  import W = WitnessDigest
  import S = SignedDigest

  // ---------- The bytes of the first witness ----------

  /** How far the witnesses have come, 0 before the first, 1 in it and 2 behind it, the bytes of the first
      one, and whether an input or another first witness came too late. */
  datatype Watch = Watch(stage: nat, bytes: seq<u8>, odd: bool)

  const UNSEEN := Watch(0, [], false)

  function See1(w: Watch, e: Event): Watch {
    match e
    case Index(t, i) =>
      if t != Witnesses then w else if i == 0 then Watch(1, [], w.odd || w.stage != 0) else w.(stage := 2)
    case Body(t, bs) => if t == Witness && w.stage == 1 then w.(bytes := w.bytes + bs) else w
    case End(t) => if t == InputDatum || t == Inputs then w.(odd := w.odd || w.stage != 0) else w
    case _ => w
  }

  function See(w: Watch, ev: seq<Event>): Watch
    decreases |ev|
  {
    if ev == [] then w else See(See1(w, ev[0]), ev[1..])
  }

  lemma {:induction false} SeePlus(w: Watch, a: seq<Event>, b: seq<Event>)
    ensures See(w, a + b) == See(See(w, a), b)
    decreases |a|
  {
    if a == [] {
      assert a + b == b;
    } else {
      assert (a + b)[1..] == a[1..] + b;
      hide See1;
      SeePlus(See1(w, a[0]), a[1..], b);
    }
  }

  lemma {:induction false} SeeTwo(w: Watch, x: Event, y: Event)
    ensures See(w, [x]) == See1(w, x) && See(w, [x, y]) == See1(See1(w, x), y)
  {
    assert [x][1..] == [] && [x, y][1..] == [y] && [y][1..] == [];
    assert See(w, [x, y]) == See(See1(w, x), [y]) == See(See1(See1(w, x), y), []);
    hide See1;
  }

  const WATCHING := Channel({}, {Witnesses}, {Witness, InputDatum, Inputs})

  lemma {:induction false} BytesSee(w: Watch, t: Tag, bs: seq<u8>)
    ensures See(w, BodyBytes(t, bs)) == See1(w, Body(t, bs))
    decreases |bs|
  {
    if bs == [] {
      assert w.bytes + bs == w.bytes;
    } else {
      var ev := BodyBytes(t, bs);
      assert ev[0] == Body(t, [bs[0]]) && ev[1..] == BodyBytes(t, bs[1..]);
      BytesSee(See1(w, ev[0]), t, bs[1..]);
      assert w.bytes + [bs[0]] + bs[1..] == w.bytes + bs;
    }
  }

  lemma {:induction false} ViewSee1(w: Watch, e: Event)
    ensures See(w, View1(WATCHING, e)) == See1(w, e)
  {
    SeeTwo(w, e, e);
    if e.Body? && e.tag in WATCHING.edge { BytesSee(w, e.tag, e.bytes); }
  }

  /** Only the callbacks watched matter, however the message is cut. */
  lemma {:induction false} ViewSee(w: Watch, ev: seq<Event>)
    ensures See(w, View(WATCHING, ev)) == See(w, ev)
    decreases |ev|
  {
    if ev != [] {
      ViewSee1(w, ev[0]);
      SeePlus(w, View1(WATCHING, ev[0]), View(WATCHING, ev[1..]));
      hide See1, View1;
      ViewSee(See1(w, ev[0]), ev[1..]);
    }
  }

  // ---------- Over a message ----------

  /** Before the witnesses nothing is seen. */
  lemma {:induction false} Unseen(w: Watch, ev: seq<Event>)
    requires w.stage == 0 && M.Before(ev)
    ensures See(w, ev) == w
    decreases |ev|
  {
    if ev != [] {
      M.BeforeStep(ev);
      assert See1(w, ev[0]) == w;
      Unseen(w, ev[1..]);
    }
  }

  /** A witness adds its bytes if it is the first. */
  lemma {:induction false} WitnessSee(w: Watch, bs: seq<u8>)
    ensures See(w, M.WitnessLog(bs)) == See1(w, Body(Witness, bs))
  {
    var size, end := Size(Witness, Low32(|bs| + 4)), End(Witness);
    var body := if bs == [] then [] else [Body(Witness, bs)];
    assert M.WitnessLog(bs) == [size] + body + [end];
    SeePlus(w, [size] + body, [end]);
    SeePlus(w, [size], body);
    SeeTwo(w, size, size);
    SeeTwo(w, Body(Witness, bs), end);
    SeeTwo(See(w, body), end, end);
    assert See(w, body) == See1(w, Body(Witness, bs)) by { assert w.bytes + [] == w.bytes; }
  }

  lemma {:induction false} NextSee(w: Watch, k: nat)
    ensures See(w, [Start(Witness), Index(Witnesses, k + 1)]) == w.(stage := 2)
  {
    SeeTwo(w, Start(Witness), Index(Witnesses, k + 1));
  }

  /** Behind the first witness nothing more is seen. */
  lemma {:induction false} LaterSee(w: Watch, vals: seq<Val>, k: nat)
    requires k <= |vals| && w.stage == 2 && M.Blobs(vals)
    ensures forall i | 0 <= i < |vals| :: Typed(Kid(W.WitnessVec(), i), vals[i])
    ensures See(w, ReplayKids(W.WitnessVec(), vals, k)) == w
    decreases |vals| - k
  {
    assert See(w, []) == w;
    M.WitnessesStep(vals, k);
    if k < |vals| {
      var a, b, c := M.WitnessLog(vals[k].bytes), [Start(Witness), Index(Witnesses, k + 1)], ReplayKids(W.WitnessVec(), vals, k + 1);
      assert See1(w, Body(Witness, vals[k].bytes)) == w == w.(stage := 2);
      hide *;
      WitnessSee(w, vals[k].bytes);
      NextSee(w, k);
      LaterSee(w, vals, k + 1);
      SeePlus(w, a + b, c);
      SeePlus(w, a, b);
    }
  }

  lemma {:induction false} EnterSee(n: u32)
    ensures See(UNSEEN, [Start(Witness), Length(Witnesses, n), Index(Witnesses, 0)]) == Watch(1, [], false)
  {
    var a, b := [Start(Witness), Length(Witnesses, n)], Index(Witnesses, 0);
    assert [Start(Witness), Length(Witnesses, n), Index(Witnesses, 0)] == a + [b];
    SeeTwo(UNSEEN, Start(Witness), Length(Witnesses, n));
    SeeTwo(UNSEEN, b, b);
    hide See;
    SeePlus(UNSEEN, a, [b]);
  }

  lemma {:induction false} EndSee(w: Watch, t: Tag, bs: seq<u8>)
    requires t == Quiet || t == Witnesses
    ensures See(w, [Chunk(t, bs), End(t)]) == w
  {
    SeeTwo(w, Chunk(t, bs), End(t));
  }

  /** What is known of the witnesses in the end. */
  function WatchOf(vals: seq<Val>): Watch
    requires vals != [] ==> vals[0].Blob?
  {
    if vals == [] then UNSEEN else Watch(2, vals[0].bytes, false)
  }

  lemma {:induction false} WitnessesSee(v: Val)
    requires Typed(W.WitnessVec(), v)
    ensures v.Items? && (v.vals != [] ==> v.vals[0].Blob?)
    ensures See(UNSEEN, Replay(W.WitnessVec(), v)) == WatchOf(v.vals)
  {
    var s := W.WitnessVec();
    M.WitnessesAre(v);
    assert s.tag == Witnesses && M.EndLog(s, Encode(s, v)) == [Chunk(Witnesses, Encode(s, v)), End(Witnesses)];
    var end := M.EndLog(s, Encode(s, v));
    if v.vals == [] {
      assert v == Items([]);
      hide *;
      M.NoWitnessLog(v);
      EndSee(UNSEEN, Witnesses, Encode(s, v));
      WatchIs(v.vals);
    } else {
      assert v.vals[0].Blob? && 0 < |v.vals|;
      hide *;
      M.WitnessesLog(v);
      var n, bs := Low32(|v.vals|), v.vals[0].bytes;
      var a, b := [Start(Witness), Length(Witnesses, n), Index(Witnesses, 0)], M.WitnessLog(bs);
      var c, rest := [Start(Witness), Index(Witnesses, 1)], ReplayKids(s, v.vals, 1);
      var w := Watch(2, bs, false);
      EnterSee(n);
      FirstSee(bs);
      LaterSee(w, v.vals, 1);
      EndSee(w, Witnesses, Encode(s, v));
      SeePlus(UNSEEN, a + (b + c + rest), end);
      SeePlus(UNSEEN, a, b + c + rest);
      SeePlus(Watch(1, [], false), b + c, rest);
      WatchIs(v.vals);
    }
  }

  lemma {:induction false} FirstSee(bs: seq<u8>)
    ensures See(Watch(1, [], false), M.WitnessLog(bs) + [Start(Witness), Index(Witnesses, 1)]) == Watch(2, bs, false)
  {
    var w := Watch(1, [], false);
    WitnessSee(w, bs);
    assert [] + bs == bs;
    NextSee(See1(w, Body(Witness, bs)), 0);
    hide See, M.WitnessLog;
    SeePlus(w, M.WitnessLog(bs), [Start(Witness), Index(Witnesses, 1)]);
  }

  lemma {:induction false} WatchIs(vals: seq<Val>)
    requires vals != [] ==> vals[0].Blob?
    ensures WatchOf(vals) == if vals == [] then UNSEEN else Watch(2, vals[0].bytes, false)
  {
  }

  lemma {:induction false} TxSee(v: Val)
    requires Typed(AnnotatedTx(), v) && |Encode(AnnotatedTx(), v)| < U32_SIZE
    ensures v.Items? && |v.vals| == 5 && v.vals[4].Items? && (v.vals[4].vals != [] ==> v.vals[4].vals[0].Blob?)
    ensures See(UNSEEN, Replay(AnnotatedTx(), v)) == WatchOf(v.vals[4].vals)
  {
    assert UNSEEN.stage == 0;
    hide *;
    var pre := M.TxLog(v);
    var a, b := Replay(W.WitnessVec(), v.vals[4]), [Chunk(Quiet, Encode(AnnotatedTx(), v)), End(Quiet)];
    Unseen(UNSEEN, pre);
    WitnessesSee(v.vals[4]);
    EndSee(See(UNSEEN, a), Quiet, Encode(AnnotatedTx(), v));
    SeePlus(UNSEEN, pre + a, b);
    SeePlus(UNSEEN, pre, a);
  }

  // ---------- The script of the first witness ----------

  /** What has been read of the first witness, when these are its bytes so far. */
  function FirstRead(bytes: seq<u8>): Res {
    Go(WitnessArgs(), NUM_MAX, Init(WitnessArgs()), bytes)
  }

  /** What has been seen of its lock. */
  function LockSeen(bytes: seq<u8>): seq<u8> {
    Collect(LockPart, View(MULTISIG, FirstRead(bytes).ev))
  }

  predicate Nonzero(lock: seq<u8>) {
    lock != [] && lock[0] != 0
  }

  /** The first witness has been read up to here, with its reserved byte noticed. */
  ghost predicate Scanning(d: Digest, multisig: bool, bytes: seq<u8>) {
    var r, lock := FirstRead(bytes), LockSeen(bytes);
    r.rv != REJECT ==>
      && (r.rv == INCOMPLETE ==> d.args == Parsing(r.st)) && (r.rv == COMPLETE ==> d.args == Parsed)
      && (d.refused <==> multisig && Nonzero(lock)) && (multisig && !Nonzero(lock) ==> (d.scan.used == 0 <==> lock == []))
  }

  lemma {:induction false} StartScanning(d: Digest, multisig: bool)
    requires d.args == Parsing(Init(WitnessArgs())) && d.scan == NO_SCAN && !d.refused
    ensures Scanning(d, multisig, []) && FirstRead([]).rv == INCOMPLETE && LockSeen([]) == []
  {
    var st := Init(WitnessArgs());
    assert Still(WitnessArgs(), NUM_MAX, st);
    GoOnStill(WitnessArgs(), NUM_MAX, st, []);
    MultisigAnti();
    assert View(MULTISIG, FirstRead([]).ev) == View(MULTISIG, Fold(WitnessArgs(), NUM_MAX, st, []).ev) == [];
    hide Go, WitnessArgs;
  }

  /** Reading on: the verdict, the state and the lock. */
  lemma {:induction false} ReadOn(a: seq<u8>, b: seq<u8>)
    ensures var r, all := FirstRead(a), FirstRead(a + b);
            && (r.rv == REJECT ==> all.rv == REJECT)
            && (r.rv == COMPLETE ==> all.rv == COMPLETE && LockSeen(a + b) == LockSeen(a))
            && (r.rv == INCOMPLETE ==> var q := Go(WitnessArgs(), NUM_MAX, r.st, b);
                  && all.rv == q.rv && (q.rv == INCOMPLETE ==> all.st == q.st)
                  && (q.rv != REJECT ==> LockSeen(a + b) == LockSeen(a) + Collect(LockPart, View(MULTISIG, q.ev))))
  {
    var st := Init(WitnessArgs());
    var r := FirstRead(a);
    assert Still(WitnessArgs(), NUM_MAX, st);
    StillShaped(WitnessArgs(), NUM_MAX, st);
    GoSplit(WitnessArgs(), NUM_MAX, st, a, b);
    MultisigAnti();
    hide View, Collect, WitnessArgs, Go, Anti;
    if r.rv == INCOMPLETE {
      var q := Go(WitnessArgs(), NUM_MAX, r.st, b);
      ViewPlus(MULTISIG, r.ev, q.ev);
      CollectPlus(LockPart, View(MULTISIG, r.ev), View(MULTISIG, q.ev));
    }
  }

  /** One more piece of the lock. */
  lemma {:induction false} MoreLock(s: Scan, refused: bool, lock: seq<u8>, cut: seq<u8>)
    requires (refused <==> Nonzero(lock)) && (!Nonzero(lock) ==> (s.used == 0 <==> lock == []))
    ensures refused || Reserved(s, cut) <==> Nonzero(lock + cut)
    ensures !Nonzero(lock + cut) ==> (Scanned(s, cut).used == 0 <==> lock + cut == [])
  {
    if lock == [] { assert lock + cut == cut; }
  }

  /** One more piece of the first witness. */
  lemma {:induction false} MoreScanning(d: Digest, bytes: seq<u8>, bs: seq<u8>)
    requires Scanning(d, d.multisig, bytes)
    ensures Scanning(ReadFirst(d, bs), d.multisig, bytes + bs)
  {
    var r, lock := FirstRead(bytes), LockSeen(bytes);
    ReadOn(bytes, bs);
    hide LockSeen, FirstRead, Nonzero, Go, Pass, WitnessArgs, View, Collect;
    if r.rv == INCOMPLETE {
      var q := Go(WitnessArgs(), NUM_MAX, r.st, bs);
      if d.multisig {
        PassParts(d, q.ev);
        MoreLock(d.scan, d.refused, lock, Collect(LockPart, View(MULTISIG, q.ev)));
      } else {
        PlainRefused(d, q.ev);
      }
    }
  }

  lemma {:induction false} PlainRefused(d: Digest, ev: seq<Event>)
    requires !d.multisig
    ensures Pass(d, ev).refused == d.refused
  {
    PlainPass(d, ev);
    hide Pass, View, Rewritten;
  }

  // ---------- In a run ----------

  /** What the state says of the witnesses. */
  ghost predicate Told(d: Desk, w: Watch) {
    var (x, multisig, read) := (d.digest, d.book.spent.multisig, FirstRead(w.bytes).rv);
    w.odd ||
      if w.stage == 1 then x.isFirst && Scanning(x, multisig, w.bytes)
      else
        && !x.isFirst && (w.stage == 0 ==> w.bytes == [] && !x.refused)
        && (w.stage != 0 && read != REJECT ==> (x.refused <==> multisig && Nonzero(LockSeen(w.bytes))))
  }

  /** What the hash states know of the first witness. */
  function Reading(d: Digest): (bool, First, Scan, bool) {
    (d.isFirst, d.args, d.scan, d.refused)
  }

  lemma {:induction false} LeafKeeps(d: Digest, t: Tag, bs: seq<u8>)
    ensures Reading(OnLeaf(d, t, bs)) == Reading(OnChunk(d, t, bs)) == Reading(d)
  {
    AbsorbKeeps(d, bs);
    hide Unpack, Absorb;
  }

  lemma {:induction false} BodyKeeps(d: Digest, t: Tag, bs: seq<u8>)
    requires t != Witness || !d.isFirst
    ensures Reading(OnBody(d, t, bs)) == Reading(d)
  {
    AbsorbKeeps(d, bs);
    hide ReadFirst, Absorb;
  }

  lemma {:induction false} EndKeeps(H: Hash, d: Digest, t: Tag)
    ensures t == Inputs ==> OnEnd(H, d, t).refused == d.refused && !OnEnd(H, d, t).isFirst
    ensures t != Inputs ==> Reading(OnEnd(H, d, t)) == Reading(d)
  {
    hide Absorb;
    match t {
      case Source => assert Reading(Absorb(d, H(d.source) + d.index)) == Reading(d) by { AbsorbKeeps(d, H(d.source) + d.index); }
      case _ =>
    }
  }

  lemma {:induction false} AbsorbKeeps(d: Digest, bs: seq<u8>)
    ensures Reading(Absorb(d, bs)) == Reading(d)
  {
  }

  lemma {:induction false} InnerKeeps(d: Digest, e: Event)
    ensures !(e.Index? && e.tag == Witnesses) ==> Reading(OnInner(d, e)) == Reading(d)
  {
    hide NewHeader, Pack, Pack64, Init, WitnessArgs;
  }

  /** What a callback other than those on the witnesses leaves alone. */
  lemma {:induction false} Untouched(H: Hash, d: Digest, e: Event)
    requires !(e.Index? && e.tag == Witnesses) && !(e.Body? && e.tag == Witness && d.isFirst)
    ensures var r := Apply(H, d, e);
            if e == End(Inputs) then !r.isFirst && r.refused == d.refused else Reading(r) == Reading(d)
  {
    match e {
      case Leaf(t, bs) => LeafKeeps(d, t, bs);
      case Chunk(t, bs) => LeafKeeps(d, t, bs);
      case Body(t, bs) => BodyKeeps(d, t, bs);
      case End(t) => EndKeeps(H, d, t);
      case Start(_) =>
      case _ => InnerKeeps(d, e);
    }
    hide OnLeaf, OnChunk, OnBody, OnEnd, OnInner;
  }

  lemma {:induction false} OutputSame(b: L.Book)
    ensures L.OutputEnd(b).spent == b.spent
  {
    PaySame(b);
    hide L.Pay, L.Add64, L.ShiftBit;
  }

  lemma {:induction false} PaySame(b: L.Book)
    ensures L.Pay(b).spent == b.spent
  {
    hide L.Credit, L.SamePlace, L.Add64;
  }

  lemma {:induction false} EndSame(k: L.Keys, b: L.Book, t: Tag)
    requires t != InputDatum
    ensures L.OnEnd(k, b, t).spent.multisig == b.spent.multisig
  {
    OutputSame(b);
    hide L.OutputEnd, L.Amounts, L.Settled, L.Balance, L.Zero, L.Rejects, L.Sub64;
  }

  /** Only the data of an input can have a multisig input signed. */
  lemma {:induction false} MultisigSame(k: L.Keys, b: L.Book, e: Event)
    requires e != End(InputDatum)
    ensures L.Apply(k, b, e).spent.multisig == b.spent.multisig
  {
    if e.End? { EndSame(k, b, e.tag); }
    if e.Leaf? || e.Body? { DataSame(k, b, e.tag, e.bytes); }
    hide L.OnEnd, L.OnLeaf, L.OnBody, L.Zero;
  }

  lemma {:induction false} DataSame(k: L.Keys, b: L.Book, t: Tag, bs: seq<u8>)
    ensures L.OnLeaf(k, b, t, bs).spent == b.spent == L.OnBody(k, b, t, bs).spent
  {
    hide L.DefaultLock, L.MultisigLock, L.DaoType, L.Splice, L.Differs, L.HasNonzero, L.Unpack64, L.Expected, L.Zero, Unpack;
  }

  lemma {:induction false} BothIs(H: Hash, k: L.Keys, d: Desk, e: Event)
    ensures var r, x := Both(H, k, d, e), Informed(d, e);
            && r.digest == Apply(H, x, e) && r.book == L.Apply(k, d.book, e) && x.multisig == d.book.spent.multisig
            && x.isFirst == d.digest.isFirst && x.args == d.digest.args && x.scan == d.digest.scan && x.refused == d.digest.refused
  {
    hide Apply, L.Apply, L.Rejects;
  }

  lemma {:induction false} ToldNext(H: Hash, k: L.Keys, d: Desk, w: Watch, e: Event)
    requires Told(d, w)
    ensures Told(Both(H, k, d, e), See1(w, e))
  {
    BothIs(H, k, d, e);
    hide Both, Informed, FirstRead, LockSeen, Nonzero, Apply, L.Apply;
    if !See1(w, e).odd {
      if e.Index? && e.tag == Witnesses {
        ToldIndex(H, k, d, w, e);
      } else if e.Body? && e.tag == Witness && w.stage == 1 {
        ToldBody(H, k, d, w, e);
      } else {
        Untouched(H, Informed(d, e), e);
        if e != End(InputDatum) { MultisigSame(k, d.book, e); }
      }
    }
  }

  lemma {:induction false} IndexSays(H: Hash, d: Digest, i: nat)
    ensures var r := Apply(H, d, Index(Witnesses, i));
            r.refused == d.refused && if i == 0 then r.isFirst && r.args == Parsing(Init(WitnessArgs())) && r.scan == NO_SCAN else !r.isFirst
  {
    hide Init, WitnessArgs;
  }

  lemma {:induction false} ToldIndex(H: Hash, k: L.Keys, d: Desk, w: Watch, e: Event)
    requires Told(d, w) && e.Index? && e.tag == Witnesses && !See1(w, e).odd
    ensures Told(Both(H, k, d, e), See1(w, e))
  {
    BothIs(H, k, d, e);
    MultisigSame(k, d.book, e);
    IndexSays(H, Informed(d, e), e.i);
    hide Both, Informed, Apply, L.Apply, FirstRead, LockSeen, Init, WitnessArgs, Nonzero;
    if e.i == 0 { StartScanning(Both(H, k, d, e).digest, d.book.spent.multisig); } else if w.stage == 0 { NothingScanned(); }
  }

  lemma {:induction false} NothingScanned()
    ensures LockSeen([]) == [] && !Nonzero([])
  {
    hide FirstRead, LockSeen;
    StartScanning(FRESH, false);
  }

  lemma {:induction false} ToldBody(H: Hash, k: L.Keys, d: Desk, w: Watch, e: Event)
    requires Told(d, w) && e.Body? && e.tag == Witness && w.stage == 1 && !w.odd
    ensures Told(Both(H, k, d, e), See1(w, e))
  {
    BothIs(H, k, d, e);
    MultisigSame(k, d.book, e);
    var x := Informed(d, e);
    hide Both, Informed, L.Apply, FirstRead, LockSeen, Nonzero;
    MoreScanning(x, w.bytes, e.bytes);
    FirstStays(x, e.bytes);
    hide ReadFirst;
  }

  lemma {:induction false} FirstStays(d: Digest, bs: seq<u8>)
    ensures ReadFirst(d, bs).isFirst == d.isFirst
  {
    if d.args.Parsing? { PassKeeps(d, Go(WitnessArgs(), NUM_MAX, d.args.st, bs).ev); }
    hide Pass, Go, WitnessArgs;
  }

  lemma {:induction false} ToldRun(H: Hash, k: L.Keys, d: Desk, w: Watch, ev: seq<Event>)
    requires Told(d, w)
    ensures Told(RunBoth(H, k, d, ev), See(w, ev))
    decreases |ev|
  {
    hide Told, Both, See1;
    if ev != [] {
      ToldNext(H, k, d, w, ev[0]);
      ToldRun(H, k, Both(H, k, d, ev[0]), See1(w, ev[0]), ev[1..]);
    }
  }

  // ---------- The result ----------

  /** The first witness, if there is one, is not rejected by its reader. */
  ghost predicate Readable(v: Val)
    requires Typed(AnnotatedTx(), v)
  {
    S.TxShaped(v);
    v.vals[4].vals != [] ==> v.vals[4].vals[0].Blob? && FirstRead(v.vals[4].vals[0].bytes).rv != REJECT
  }

  /** The first byte of its lock is not zero. */
  ghost predicate ReservedSet(v: Val)
    requires Typed(AnnotatedTx(), v)
  {
    S.TxShaped(v);
    v.vals[4].vals != [] && v.vals[4].vals[0].Blob? && Nonzero(LockSeen(v.vals[4].vals[0].bytes))
  }

  /** However a message arrives whose first witness can be read, its script is refused exactly if a
      multisig input is signed and its reserved byte is not zero. */
  lemma {:induction false} ReservedExactly(H: Hash, k: L.Keys, v: Val, chunks: seq<seq<u8>>, ev: seq<Event>)
    requires Typed(AnnotatedTx(), v) && |Encode(AnnotatedTx(), v)| < U32_SIZE && chunks != [] && Join(chunks) == Encode(AnnotatedTx(), v)
    requires Same(AnnotatedTx(), Feed(AnnotatedTx(), NUM_MAX, Init(AnnotatedTx()), chunks).ev, ev) && Readable(v)
    ensures var d := RunBoth(H, k, FreshDesk(), ev); d.digest.refused <==> d.book.spent.multisig && ReservedSet(v)
  {
    hide *;
    ReadableIs(v);
    WatchedSame(v, chunks, ev);
    TxSee(v);
    ViewSee(UNSEEN, ev);
    ViewSee(UNSEEN, Replay(AnnotatedTx(), v));
    FreshTold();
    ToldRun(H, k, FreshDesk(), UNSEEN, ev);
    ToldEnd(RunBoth(H, k, FreshDesk(), ev), v.vals[4].vals);
  }

  lemma {:induction false} WatchedSame(v: Val, chunks: seq<seq<u8>>, ev: seq<Event>)
    requires Typed(AnnotatedTx(), v) && |Encode(AnnotatedTx(), v)| < U32_SIZE && chunks != [] && Join(chunks) == Encode(AnnotatedTx(), v)
    requires Same(AnnotatedTx(), Feed(AnnotatedTx(), NUM_MAX, Init(AnnotatedTx()), chunks).ev, ev)
    ensures View(WATCHING, ev) == View(WATCHING, Replay(AnnotatedTx(), v))
  {
    MessagesRegular();
    FeedTrip(AnnotatedTx(), NUM_MAX, v, chunks);
    L.NoChunks(WATCHING, AnnotatedTx());
    hide Encode, Typed, Replay, View, Feed, AnnotatedTx, Anti, Join, Regular;
  }

  lemma {:induction false} FreshTold()
    ensures Told(FreshDesk(), UNSEEN)
  {
    hide FirstRead, LockSeen;
  }

  lemma {:induction false} ToldEnd(d: Desk, vals: seq<Val>)
    requires (vals != [] ==> vals[0].Blob? && FirstRead(vals[0].bytes).rv != REJECT) && Told(d, WatchOf(vals))
    ensures d.digest.refused <==> d.book.spent.multisig && vals != [] && Nonzero(LockSeen(vals[0].bytes))
  {
    hide FirstRead, LockSeen;
  }

  lemma {:induction false} ReadableIs(v: Val)
    requires Typed(AnnotatedTx(), v)
    ensures v.Items? && |v.vals| == 5 && v.vals[4].Items?
    ensures var ws := v.vals[4].vals;
            && (Readable(v) <==> (ws != [] ==> ws[0].Blob? && FirstRead(ws[0].bytes).rv != REJECT))
            && (ReservedSet(v) <==> ws != [] && ws[0].Blob? && Nonzero(LockSeen(ws[0].bytes)))
  {
    S.TxShaped(v);
    hide FirstRead, LockSeen, AnnotatedTx;
  }

  // ---------- Well-formed arguments ----------

  lemma {:induction false} NoLock(ev: seq<Event>)
    requires forall i | 0 <= i < |ev| :: !(ev[i].Body? && ev[i].tag == WitnessLock)
    ensures Collect(LockPart, ev) == []
  {
    if ev != [] { NoLock(ev[1..]); }
  }

  function LockOf(a: Val): seq<u8>
    requires W.ArgsShape(a)
  {
    if a.vals[0].None? then [] else a.vals[0].val.bytes
  }

  lemma {:induction false} LockCollected(v: Val)
    requires Typed(Option(Quiet, Bytes(WitnessLock)), v)
    ensures v.None? || (v.Some? && v.val.Blob?)
    ensures Collect(LockPart, Replay(Option(Quiet, Bytes(WitnessLock)), v)) == if v.None? then [] else v.val.bytes
  {
    var s := Option(Quiet, Bytes(WitnessLock));
    var tail := [Chunk(Quiet, Encode(s, v)), End(Quiet)];
    if v.None? {
      assert Within(s, v) == [] && Replay(s, v) == tail;
      hide Replay, Encode, Typed;
      NoLock(tail);
    } else {
      assert v.Some? && Typed(Bytes(WitnessLock), v.val);
      OptionReplay(s, v);
      hide Replay, Encode, Typed, Collect;
      SomeCollected(v.val);
      NoLock(tail);
      CollectPlus(LockPart, Replay(Bytes(WitnessLock), v.val), tail);
    }
  }

  lemma {:induction false} SomeCollected(v: Val)
    requires Typed(Bytes(WitnessLock), v)
    ensures v.Blob? && Collect(LockPart, Replay(Bytes(WitnessLock), v)) == v.bytes
  {
    var bs := v.bytes;
    var size, body, end := [Size(WitnessLock, Low32(|bs| + 4))], if bs == [] then [] else [Body(WitnessLock, bs)], [End(WitnessLock)];
    assert Replay(Bytes(WitnessLock), v) == size + body + end;
    hide Replay;
    NoLock(size);
    NoLock(end);
    CollectOne(LockPart, Body(WitnessLock, bs));
    CollectPlus(LockPart, size + body, end);
    CollectPlus(LockPart, size, body);
  }

  lemma {:induction false} TypeCollected(t: Tag, v: Val)
    requires t == WitnessInType || t == WitnessOutType
    requires Typed(Option(t, Bytes(Quiet)), v) && |Encode(Option(t, Bytes(Quiet)), v)| < U32_SIZE
    ensures Collect(LockPart, Replay(Option(t, Bytes(Quiet)), v)) == []
  {
    TypeGives(t, v);
    hide Replay, Encode, Typed, View, Collect;
    CollectView(LockPart, Replay(Option(t, Bytes(Quiet)), v));
  }

  lemma {:induction false} FiveCollected(a: seq<Event>, b: seq<Event>, c: seq<Event>, d: seq<Event>, e: seq<Event>, f: seq<Event>, g: seq<Event>)
    ensures Collect(LockPart, a + (b + c + (d + e + f)) + g)
         == Collect(LockPart, a) + (Collect(LockPart, b) + Collect(LockPart, c)
            + (Collect(LockPart, d) + Collect(LockPart, e) + Collect(LockPart, f))) + Collect(LockPart, g)
  {
    hide Collect;
    CollectPlus(LockPart, a + (b + c + (d + e + f)), g);
    CollectPlus(LockPart, a, b + c + (d + e + f));
    CollectPlus(LockPart, b + c, d + e + f);
    CollectPlus(LockPart, b, c);
    CollectPlus(LockPart, d + e, f);
    CollectPlus(LockPart, d, e);
  }

  lemma {:induction false} ArgsCollected(a: Val)
    requires W.ArgsShape(a) && Typed(WitnessArgs(), a) && |Encode(WitnessArgs(), a)| < U32_SIZE
    ensures Collect(LockPart, Replay(WitnessArgs(), a)) == LockOf(a)
  {
    var s := WitnessArgs();
    LockOfIs(a);
    hide *;
    var f, end := s.fields, [Chunk(WitnessTable, Encode(s, a)), End(WitnessTable)];
    W.ArgsWithin(a);
    W.ArgsEvents(a);
    ArgFields(a);
    LockCollected(a.vals[0]);
    TypeCollected(WitnessInType, a.vals[1]);
    TypeCollected(WitnessOutType, a.vals[2]);
    var enter, i1, i2 := EnterEv(s, Kept(s, a), 3), InitEv(f[1]), InitEv(f[2]);
    StartsCollected(Quiet, WitnessLock, Kept(s, a), Encode(s, a));
    StartsCollected(WitnessInType, Quiet, [], []);
    StartsCollected(WitnessOutType, Quiet, [], []);
    FiveCollected(enter, Replay(f[0], a.vals[0]), i1, Replay(f[1], a.vals[1]), i2, Replay(f[2], a.vals[2]), end);
    assert [] + (LockOf(a) + [] + ([] + [] + [])) + [] == LockOf(a);
  }

  lemma {:induction false} StartsCollected(t: Tag, u: Tag, ws: seq<u32>, bs: seq<u8>)
    ensures Collect(LockPart, [Start(t), Start(u)]) == [] && Collect(LockPart, [Start(t), Start(u)] + [Offsets(WitnessTable, ws)]) == []
    ensures Collect(LockPart, [Chunk(WitnessTable, bs), End(WitnessTable)]) == []
  {
    NoLock([Start(t), Start(u)]);
    NoLock([Start(t), Start(u)] + [Offsets(WitnessTable, ws)]);
    NoLock([Chunk(WitnessTable, bs), End(WitnessTable)]);
    hide Collect;
  }

  lemma {:induction false} LockOfIs(a: Val)
    requires W.ArgsShape(a)
    ensures a.Items? && |a.vals| == 3 && Typed(Option(Quiet, Bytes(WitnessLock)), a.vals[0])
    ensures LockOf(a) == if a.vals[0].None? then [] else a.vals[0].val.bytes
  {
  }

  lemma {:induction false} ArgFields(a: Val)
    requires W.ArgsShape(a) && Typed(WitnessArgs(), a) && |Encode(WitnessArgs(), a)| < U32_SIZE
    ensures var s := WitnessArgs();
            && s.Table? && s.fields == [Option(Quiet, Bytes(WitnessLock)), Option(WitnessInType, Bytes(Quiet)), Option(WitnessOutType, Bytes(Quiet))]
            && Typed(s.fields[1], a.vals[1]) && |Encode(s.fields[1], a.vals[1])| < U32_SIZE
            && Typed(s.fields[2], a.vals[2]) && |Encode(s.fields[2], a.vals[2])| < U32_SIZE
  {
    var s := WitnessArgs();
    KidSmall(s, a, 1);
    KidSmall(s, a, 2);
    assert Kid(s, 1) == s.fields[1] && Kid(s, 2) == s.fields[2];
    hide Typed, Encode;
  }

  /** Of well-formed arguments the whole lock is seen. */
  lemma {:induction false} LockSeenIs(a: Val)
    requires W.ArgsShape(a) && Typed(WitnessArgs(), a) && |Encode(WitnessArgs(), a)| < U32_SIZE
    ensures FirstRead(Encode(WitnessArgs(), a)).rv == COMPLETE && LockSeen(Encode(WitnessArgs(), a)) == LockOf(a)
  {
    var bs := Encode(WitnessArgs(), a);
    WitnessRegular();
    Trips(WitnessArgs(), NUM_MAX, a, []);
    assert bs + [] == bs;
    MultisigAnti();
    ArgsCollected(a);
    hide Encode, Typed, View, Replay, Collect, Go, WitnessArgs, LockOf;
    CollectView(LockPart, Replay(WitnessArgs(), a));
  }
}
