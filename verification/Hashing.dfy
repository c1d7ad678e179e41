/** The callbacks that turn an annotated transaction into the byte stream to be hashed.

    blake2b is an unknown function `H` of the bytes absorbed since the hash state was cleared. */
module Hashing {
  import opened Words
  import opened Schema
  import opened Automaton
  import opened Views
  import opened Lifting
  import opened Encoding
  import opened Transaction

  type Hash = seq<u8> -> seq<u8>

  ghost predicate IsHash(H: Hash) {
    forall b :: |H(b)| == 32
  }

  /** The callbacks that reach a hash state. */
  const HASHING :=
    Channel({CellDeps, HeaderDeps, Source, Outputs, OutputsData}, {RawTx, Inputs, Witnesses, Witness},
            {InputCount, Version, Since, PrevIndex, Source, Input, Inputs, RawTx, Witnesses, Witness})

  /** The callbacks that reach the hash state while the first witness is read. */
  const REWRITE := Channel({WitnessInType, WitnessOutType}, {WitnessTable}, {})

  /** The same, when a multisig input is signed. */
  const MULTISIG := Channel({WitnessInType, WitnessOutType}, {WitnessTable, WitnessLock}, {WitnessLock})

  /** The reader of the first witness: at work, complete, or given up. */
  datatype First = Parsing(st: St) | Parsed | Broken

  /** How much of a multisig lock has passed, and the number of keys its script announces. */
  datatype Scan = Scan(used: nat, keys: u8)

  const NO_SCAN := Scan(0, 0)

  /** What the hashing callbacks keep: the bytes absorbed by `hash_state` and by the source's
      hash state, the index of the input at hand, the announced number of inputs, and the
      witnesses' state. `flagged` is the verdict of `finalize_raw_transaction`, which the accounts
      decide (module Ledger); a flagged transaction has no hash. So is `multisig`, which says that a
      multisig input is signed; `refused`, that its script's reserved byte is not zero. */
  datatype Digest = Digest(
    main: seq<u8>, source: seq<u8>, index: seq<u8>, count: u32, hardReject: bool,
    txHash: seq<u8>, isFirst: bool, args: First, firstDone: bool, final: seq<u8>, flagged: bool,
    multisig: bool, scan: Scan, refused: bool)

  const NO_INDEX: seq<u8> := [0, 0, 0, 0]
  const FRESH := Digest([], [], NO_INDEX, 0, false, [], false, Parsing(Init(WitnessArgs())), false, [], false, false, NO_SCAN, false)

  function Zeros(n: nat): (z: seq<u8>)
    ensures |z| == n
  {
    seq(n, _ => 0)
  }

  /** `zero_witness`: a 65-byte signature of zeros, with its length. */
  const ZERO_WITNESS: seq<u8> := [0x41, 0, 0, 0] + Zeros(65)

  /** `self_witness`: the length and serialization of witness arguments that hold only that. */
  const SELF_WITNESS: seq<u8> :=
    [0x55, 0, 0, 0, 0, 0, 0, 0] + [0x55, 0, 0, 0, 0x10, 0, 0, 0, 0x55, 0, 0, 0, 0x55, 0, 0, 0] + ZERO_WITNESS

  function Pack64(n: nat): (b: seq<u8>)
    ensures |b| == 8
  {
    Digits(n, 8)
  }

  function Absorb(d: Digest, bs: seq<u8>): Digest {
    d.(main := d.main + bs)
  }

  /** `computeNewOffsetsToHash`: the header of the raw transaction whose inputs are a fixvec of 44
      bytes each. */
  function NewHeader(ws: seq<u32>, count: u32): seq<u8> {
    if |ws| != 7 then []
    else
      var sub := Sub32(Sub32(ws[5], ws[4]), Add32(44 * count, 4));
      Pack(Sub32(ws[0], sub)) + Pack(ws[1]) + Pack(ws[2]) + Pack(ws[3]) + Pack(ws[4])
      + Pack(Sub32(ws[5], sub)) + Pack(Sub32(ws[6], sub))
  }

  /** `witness_offsets`, when no signed input is multisig: the header of the witness arguments
      whose lock is a signature of zeros, the length before it, and that lock. */
  function NewWitness(ws: seq<u32>): seq<u8> {
    if |ws| != 4 then []
    else
      var lockLen := Sub32(ws[2], ws[1]);
      var total := Sub32(Add32(ws[0], 69), lockLen);
      Pack64(total) + (Pack(total) + Pack(ws[1]) + Pack(Sub32(Add32(ws[2], 69), lockLen))
                       + Pack(Sub32(Add32(ws[3], 69), lockLen))) + ZERO_WITNESS
  }

  /** The bytes a callback on the first witness passes to the hash. */
  function Rewritten1(e: Event): seq<u8> {
    match e
    case Offsets(t, ws) => if t == WitnessTable then NewWitness(ws) else []
    case Chunk(t, bs) => if t == WitnessInType || t == WitnessOutType then bs else []
    case _ => []
  }

  function Rewritten(ev: seq<Event>): seq<u8> {
    if ev == [] then [] else Rewritten1(ev[0]) + Rewritten(ev[1..])
  }

  // ---------- A multisig lock ----------

  /** The length of the script at the start of a multisig lock. */
  function ScriptLength(keys: u8): nat {
    4 + 20 * keys
  }

  /** The number of keys, when this piece has been seen. Before the piece that holds it arrives it is
      read from beyond the piece, and used for nothing. */
  function KeysIn(s: Scan, bs: seq<u8>): u8 {
    if s.used >= 4 then s.keys else if 3 - s.used < |bs| then bs[3 - s.used] else 0
  }

  /** The piece with what follows the script in it zeroed. It is left alone if the script does not end
      strictly inside. */
  function Unsigned(s: Scan, bs: seq<u8>): (r: seq<u8>)
    ensures |r| == |bs|
  {
    var keys := KeysIn(s, bs);
    var n := ScriptLength(keys) - s.used;
    if keys > 0 && 0 < n < |bs| then bs[..n] + Zeros(|bs| - n) else bs
  }

  predicate Reserved(s: Scan, bs: seq<u8>) {
    s.used == 0 && bs != [] && bs[0] != 0
  }

  function LockKept(s: Scan, bs: seq<u8>): seq<u8> {
    if Reserved(s, bs) then [] else Unsigned(s, bs)
  }

  function Scanned(s: Scan, bs: seq<u8>): Scan {
    if bs == [] || Reserved(s, bs) then s else Scan(s.used + |bs|, KeysIn(s, bs))
  }

  /** `witness_lock_arg_body_chunk`. */
  function LockPiece(d: Digest, bs: seq<u8>): Digest {
    Absorb(d, LockKept(d.scan, bs)).(scan := Scanned(d.scan, bs), refused := d.refused || Reserved(d.scan, bs))
  }

  /** The parts of what a multisig witness passes to the hash. */
  datatype Part = HeadPart | LockPart | TypePart

  /** `witness_offsets` and `witness_lock_arg_size`, when a multisig input is signed. */
  function HeadGiven(e: Event): seq<u8> {
    match e
    case Offsets(t, ws) =>
      if t == WitnessTable && |ws| == 4 then Pack64(ws[0]) + (Pack(ws[0]) + Pack(ws[1]) + Pack(ws[2]) + Pack(ws[3])) else []
    case Size(t, n) => if t == WitnessLock && n >= 4 then Pack(n - 4) else []
    case _ => []
  }

  function Given(p: Part, e: Event): seq<u8> {
    match p
    case HeadPart => HeadGiven(e)
    case LockPart => if e.Body? && e.tag == WitnessLock then e.bytes else []
    case TypePart => if e.Chunk? && (e.tag == WitnessInType || e.tag == WitnessOutType) then e.bytes else []
  }

  function Collect(p: Part, ev: seq<Event>): seq<u8> {
    if ev == [] then [] else Given(p, ev[0]) + Collect(p, ev[1..])
  }

  /** One call of the reader: the header comes before the lock, the lock is one piece, and the other
      fields come after it. */
  function PassMultisig(d: Digest, ev: seq<Event>): Digest {
    Absorb(LockPiece(Absorb(d, Collect(HeadPart, ev)), Collect(LockPart, ev)), Collect(TypePart, ev))
  }

  /** What a call of the first witness's reader passes to the hash. */
  function Pass(d: Digest, ev: seq<Event>): Digest {
    if d.multisig then PassMultisig(d, View(MULTISIG, ev)) else Absorb(d, Rewritten(View(REWRITE, ev)))
  }

  /** `process_witness` on the first witness: the next bytes of the nested reader. Once that
      rejects, what it passed to the hash is void: `process_witness_end` starts over. */
  function ReadFirst(d: Digest, bs: seq<u8>): Digest {
    if d.args.Parsing? then Take(d, Go(WitnessArgs(), NUM_MAX, d.args.st, bs)) else d
  }

  function Take(d: Digest, r: Res): Digest {
    match r.rv
    case INCOMPLETE => Pass(d, r.ev).(args := Parsing(r.st))
    case COMPLETE => Pass(d, r.ev).(args := Parsed, firstDone := true)
    case REJECT => d.(args := Broken, main := [])
  }

  function OnLeaf(d: Digest, t: Tag, bs: seq<u8>): Digest {
    match t
    case InputCount => if |bs| == 4 then d.(count := Unpack(bs)) else d
    case Version => Absorb(d, bs)
    case Since => Absorb(d, bs)
    case PrevIndex => d.(index := bs)
    case _ => d
  }

  function OnChunk(d: Digest, t: Tag, bs: seq<u8>): Digest {
    if t == Source then d.(source := d.source + bs) else if t in HASHING.chunk then Absorb(d, bs) else d
  }

  function OnBody(d: Digest, t: Tag, bs: seq<u8>): Digest {
    if t != Witness then d else if d.isFirst then ReadFirst(d, bs) else Absorb(d, bs)
  }

  function OnInner(d: Digest, e: Event): Digest {
    match e
    case Offsets(t, ws) => if t == RawTx then Absorb(d, NewHeader(ws, d.count)) else d
    case Length(t, n) =>
      if t != Inputs then d else if n != d.count then d.(hardReject := true) else Absorb(d, Pack(n))
    case Index(t, i) =>
      if t != Witnesses then d
      else if i == 0 then d.(isFirst := true, main := d.txHash, args := Parsing(Init(WitnessArgs())), scan := NO_SCAN)
      else d.(isFirst := false)
    case Size(t, n) => if t == Witness && !d.isFirst && n >= 4 then Absorb(d, Pack64(n - 4)) else d
    case _ => d
  }

  function OnEnd(H: Hash, d: Digest, t: Tag): Digest {
    match t
    case Source => Absorb(d, H(d.source) + d.index).(source := [], index := NO_INDEX)
    case Inputs => d.(txHash := [], isFirst := false, firstDone := false, final := [], scan := NO_SCAN)
    case RawTx => if d.flagged then d else d.(txHash := H(d.main))
    case Witness => if d.isFirst && !d.firstDone then d.(firstDone := true, main := d.txHash + SELF_WITNESS) else d
    case Witnesses => d.(final := H(d.main))
    case _ => d
  }

  /** One callback. */
  function Apply(H: Hash, d: Digest, e: Event): Digest {
    match e
    case Leaf(t, bs) => OnLeaf(d, t, bs)
    case Chunk(t, bs) => OnChunk(d, t, bs)
    case Body(t, bs) => OnBody(d, t, bs)
    case Start(t) => if t == Input then d.(source := [], index := NO_INDEX) else d
    case End(t) => OnEnd(H, d, t)
    case _ => OnInner(d, e)
  }

  function Run(H: Hash, d: Digest, ev: seq<Event>): Digest
    decreases |ev|
  {
    if ev == [] then d else Run(H, Apply(H, d, ev[0]), ev[1..])
  }

  lemma {:induction false} RunPlus(H: Hash, d: Digest, a: seq<Event>, b: seq<Event>)
    ensures Run(H, d, a + b) == Run(H, Run(H, d, a), b)
    decreases |a|
  {
    if a == [] {
      assert a + b == b;
    } else {
      assert (a + b)[1..] == a[1..] + b;
      RunPlus(H, Apply(H, d, a[0]), a[1..], b);
    }
  }

  // ---------- How the pieces are cut does not matter ----------

  /** The nested reader rests between two pieces, and no multisig input is signed. */
  ghost predicate Calm(d: Digest) {
    !d.multisig && (d.args.Parsing? ==> Still(WitnessArgs(), NUM_MAX, d.args.st))
  }

  lemma {:induction false} CalmLike(d: Digest, e: Digest)
    requires Calm(d) && d.args == e.args && d.multisig == e.multisig
    ensures Calm(e)
  {
  }

  lemma {:induction false} RewrittenPlus(a: seq<Event>, b: seq<Event>)
    ensures Rewritten(a + b) == Rewritten(a) + Rewritten(b)
  {
    if a == [] {
      assert a + b == b;
    } else {
      assert (a + b)[1..] == a[1..] + b;
      RewrittenPlus(a[1..], b);
    }
  }

  lemma {:induction false} RewriteAnti()
    ensures Anti(REWRITE, WitnessArgs())
  {
  }

  /** Reading two pieces of the first witness is reading them together. */
  lemma {:induction false} ReadFirstPlus(d: Digest, a: seq<u8>, b: seq<u8>)
    requires Calm(d)
    ensures ReadFirst(d, a + b) == ReadFirst(ReadFirst(d, a), b)
    ensures Calm(ReadFirst(d, a))
  {
    if d.args.Parsing? {
      var st := d.args.st;
      var r, all := Go(WitnessArgs(), NUM_MAX, st, a), Go(WitnessArgs(), NUM_MAX, st, a + b);
      StillShaped(WitnessArgs(), NUM_MAX, st);
      GoSplit(WitnessArgs(), NUM_MAX, st, a, b);
      RewriteAnti();
      if r.rv == INCOMPLETE { GoStill(WitnessArgs(), NUM_MAX, st, a); }
      hide View, Rewritten, WitnessArgs, Go, Still, Absorb, Anti;
      if r.rv == INCOMPLETE { TakeMore(d, r, Go(WitnessArgs(), NUM_MAX, r.st, b), all); }
    }
  }

  /** Taking two results in a row is taking them together. */
  lemma {:induction false} TakeMore(d: Digest, r: Res, r2: Res, all: Res)
    requires !d.multisig && r.rv == INCOMPLETE && all.rv == r2.rv && (all.rv == INCOMPLETE ==> all.st == r2.st)
    requires all.rv != REJECT ==> View(REWRITE, all.ev) == View(REWRITE, r.ev + r2.ev)
    ensures Take(Take(d, r), r2) == Take(d, all)
  {
    var x, y := Rewritten(View(REWRITE, r.ev)), Rewritten(View(REWRITE, r2.ev));
    ViewPlus(REWRITE, r.ev, r2.ev);
    RewrittenPlus(View(REWRITE, r.ev), View(REWRITE, r2.ev));
    assert d.main + (x + y) == d.main + x + y;
    PlainPass(d, r.ev);
    PlainPass(Absorb(d, x).(args := Parsing(r.st)), r2.ev);
    PlainPass(d, all.ev);
    hide View, Rewritten, Pass;
  }

  lemma {:induction false} PlainPass(d: Digest, ev: seq<Event>)
    requires !d.multisig
    ensures Pass(d, ev) == Absorb(d, Rewritten(View(REWRITE, ev)))
  {
    hide View, Rewritten, PassMultisig;
  }

  /** A call of the first witness's reader changes nothing but what is hashed, and the scan of its lock. */
  lemma {:induction false} PassKeeps(d: Digest, ev: seq<Event>)
    ensures var r := Pass(d, ev); r == d.(main := r.main, scan := r.scan, refused := r.refused)
  {
    hide View, Rewritten, Collect, LockKept, Scanned, Reserved;
  }

  lemma {:induction false} ReadNothing(d: Digest)
    requires Calm(d)
    ensures ReadFirst(d, []) == d
  {
    if d.args.Parsing? {
      var st := d.args.st;
      StillPoke(WitnessArgs(), NUM_MAX, st);
      var p := Poke(WitnessArgs(), NUM_MAX, st);
      assert p.ev + [] == p.ev;
      assert View(REWRITE, p.ev) == [];
      assert d.main + [] == d.main;
    }
  }

  lemma {:induction false} BodyPlus(H: Hash, d: Digest, t: Tag, a: seq<u8>, b: seq<u8>)
    requires Calm(d)
    ensures Apply(H, Apply(H, d, Body(t, a)), Body(t, b)) == Apply(H, d, Body(t, a + b)) && Calm(Apply(H, d, Body(t, a)))
    ensures Apply(H, d, Body(t, [])) == d
  {
    ReadFirstPlus(d, a, b);
    ReadNothing(d);
    assert d.main + a + b == d.main + (a + b) && d.main + [] == d.main;
    ReadKeeps(d, a);
    hide ReadFirst, Calm;
  }

  lemma {:induction false} ReadKeeps(d: Digest, a: seq<u8>)
    ensures var r := ReadFirst(d, a); r.isFirst == d.isFirst && r.multisig == d.multisig && r.flagged == d.flagged
  {
    if d.args.Parsing? { PassKeeps(d, Go(WitnessArgs(), NUM_MAX, d.args.st, a).ev); }
    hide Pass, Go, WitnessArgs;
  }

  lemma {:induction false} BodyRun(H: Hash, d: Digest, t: Tag, bs: seq<u8>)
    requires Calm(d)
    ensures Run(H, d, BodyBytes(t, bs)) == Apply(H, d, Body(t, bs)) && Calm(Apply(H, d, Body(t, bs)))
    decreases |bs|
  {
    hide Apply, Calm;
    if bs == [] {
      BodyPlus(H, d, t, [], []);
    } else {
      var b, rest := bs[0], bs[1..];
      var ev := BodyBytes(t, bs);
      assert ev[0] == Body(t, [b]) && ev[1..] == BodyBytes(t, rest) && [b] + rest == bs;
      BodyPlus(H, d, t, [b], rest);
      BodyRun(H, Apply(H, d, Body(t, [b])), t, rest);
    }
  }

  lemma {:induction false} ChunkRun(H: Hash, d: Digest, t: Tag, bs: seq<u8>)
    ensures Run(H, d, ChunkBytes(t, bs)) == Apply(H, d, Chunk(t, bs))
    decreases |bs|
  {
    if bs == [] {
      ChunkPlus(H, d, t, [], []);
    } else {
      var b, rest := bs[0], bs[1..];
      var ev := ChunkBytes(t, bs);
      assert ev[0] == Chunk(t, [b]) && ev[1..] == ChunkBytes(t, rest) && [b] + rest == bs;
      ChunkPlus(H, d, t, [b], rest);
      hide Apply;
      ChunkRun(H, Apply(H, d, Chunk(t, [b])), t, rest);
    }
  }

  lemma {:induction false} ChunkPlus(H: Hash, d: Digest, t: Tag, a: seq<u8>, b: seq<u8>)
    ensures Apply(H, Apply(H, d, Chunk(t, a)), Chunk(t, b)) == Apply(H, d, Chunk(t, a + b))
    ensures Apply(H, d, Chunk(t, [])) == d
  {
    assert d.main + a + b == d.main + (a + b) && d.source + a + b == d.source + (a + b);
    assert d.main + [] == d.main && d.source + [] == d.source;
  }

  lemma {:induction false} OneRun(H: Hash, d: Digest, e: Event)
    requires Calm(d)
    ensures Run(H, d, View1(HASHING, e)) == Apply(H, d, e) && Calm(Apply(H, d, e))
  {
    assert [e][1..] == [];
    match e {
      case Chunk(t, bs) => ChunkRun(H, d, t, bs);
      case Body(t, bs) => BodyRun(H, d, t, bs);
      case _ =>
    }
    OtherCalm(H, d, e);
    OtherShown(H, d, e);
    hide Apply, Calm, BodyBytes, ChunkBytes, Watched;
  }

  /** Only the bytes of the first witness make its reader work. */
  lemma {:induction false} OtherCalm(H: Hash, d: Digest, e: Event)
    requires Calm(d)
    ensures !e.Body? ==> Calm(Apply(H, d, e))
  {
    if !e.Body? {
      if e.Index? { InitCalm(d, e.tag, e.i); } else { OtherKeeps(H, d, e); CalmLike(d, Apply(H, d, e)); }
    }
    hide Apply, Calm;
  }

  lemma {:induction false} InitCalm(d: Digest, t: Tag, i: nat)
    requires Calm(d)
    ensures Calm(OnInner(d, Index(t, i)))
  {
  }

  lemma {:induction false} OtherKeeps(H: Hash, d: Digest, e: Event)
    requires !e.Body? && !e.Index?
    ensures Apply(H, d, e).args == d.args && Apply(H, d, e).multisig == d.multisig
  {
    EndKeeps(H, d, e.tag);
    InnerKeeps(d, e);
    hide OnEnd, OnInner, Unpack, ReadFirst;
  }

  lemma {:induction false} EndKeeps(H: Hash, d: Digest, t: Tag)
    ensures OnEnd(H, d, t).args == d.args && OnEnd(H, d, t).multisig == d.multisig && OnEnd(H, d, t).flagged == d.flagged
  {
  }

  lemma {:induction false} InnerKeeps(d: Digest, e: Event)
    ensures !e.Index? ==> OnInner(d, e).args == d.args
    ensures OnInner(d, e).multisig == d.multisig && OnInner(d, e).flagged == d.flagged
  {
    hide NewHeader, Pack, Pack64, Init, WitnessArgs;
  }

  /** A callback that the channel drops does nothing. */
  lemma {:induction false} OtherShown(H: Hash, d: Digest, e: Event)
    ensures e.Body? || e.Chunk? || View1(HASHING, e) == [e] || (View1(HASHING, e) == [] && Apply(H, d, e) == d)
    ensures e.Chunk? ==> View1(HASHING, e) == ChunkBytes(e.tag, e.bytes) || (View1(HASHING, e) == [] && Apply(H, d, e) == d)
    ensures e.Body? ==> View1(HASHING, e) == BodyBytes(e.tag, e.bytes) || (View1(HASHING, e) == [] && Apply(H, d, e) == d)
  {
    hide ReadFirst, NewHeader, Pack, Pack64, Unpack;
  }

  /** What is hashed depends only on the view of the log on the hashing channel. */
  lemma {:induction false} RunView(H: Hash, d: Digest, ev: seq<Event>)
    requires Calm(d)
    ensures Run(H, d, ev) == Run(H, d, View(HASHING, ev)) && Calm(Run(H, d, ev))
    decreases |ev|
  {
    if ev != [] {
      OneRun(H, d, ev[0]);
      RunPlus(H, d, View1(HASHING, ev[0]), View(HASHING, ev[1..]));
      RunView(H, Apply(H, d, ev[0]), ev[1..]);
    }
  }
}
