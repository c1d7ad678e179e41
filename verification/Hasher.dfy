/** The hashing callbacks as the device runs them: each updates the hash states in place. */
module Hasher {
  import opened Words
  import opened Schema
  import opened Automaton
  import opened Views
  import opened Reader
  import opened Lifting
  import opened Encoding
  import opened RoundTrip
  import opened Chunking
  import opened Transaction
  import opened Shapes
  import opened Hashing
  import opened Rewrite
  import opened RawDigest
  import opened WitnessDigest
  import opened SignedDigest
  import opened MultisigWitness

  lemma {:induction false} RewrittenView(ev: seq<Event>)
    ensures Rewritten(View(REWRITE, ev)) == Rewritten(ev)
  {
    if ev != [] {
      RewrittenView(ev[1..]);
      RewrittenPlus(View1(REWRITE, ev[0]), View(REWRITE, ev[1..]));
      OneRewritten(ev[0]);
    }
  }

  lemma {:induction false} OneRewritten(e: Event)
    ensures Rewritten(View1(REWRITE, e)) == Rewritten1(e)
  {
    if e.Chunk? {
      RewrittenChunk(e.tag, e.bytes);
    } else {
      assert [e][1..] == [];
      assert Rewritten([e]) == Rewritten1(e) + [];
    }
  }

  lemma {:induction false} ArgsSound()
    ensures Wf(WitnessArgs()) && Sound(WitnessArgs(), Init(WitnessArgs()))
  {
    WitnessRegular();
    RegularWf(WitnessArgs());
    InitSound(WitnessArgs());
  }

  lemma {:induction false} RewrittenLast(ev: seq<Event>, i: nat)
    requires i < |ev|
    ensures Rewritten(ev[..i + 1]) == Rewritten(ev[..i]) + Rewritten1(ev[i])
  {
    assert ev[..i + 1] == ev[..i] + [ev[i]] && [ev[i]][1..] == [];
    RewrittenPlus(ev[..i], [ev[i]]);
    assert Rewritten([ev[i]]) == Rewritten1(ev[i]) + [];
  }

  /** Logs that say the same pass the same to the hash. */
  lemma {:induction false} SamePass(d: Digest, a: seq<Event>, b: seq<Event>)
    requires Same(WitnessArgs(), a, b)
    ensures Pass(d, a) == Pass(d, b)
  {
    RewriteAnti();
    MultisigAnti();
    assert View(REWRITE, a) == View(REWRITE, b) && View(MULTISIG, a) == View(MULTISIG, b);
    hide View, WitnessArgs, PassMultisig, Rewritten;
  }

  /** What the callbacks contribute, one after the other. */
  method Gather(p: Part, events: seq<Event>) returns (bs: seq<u8>)
    ensures bs == Collect(p, events)
  {
    bs := [];
    var i := 0;
    while i < |events|
      invariant i <= |events| && bs == Collect(p, events[..i])
    {
      assert events[..i + 1] == events[..i] + [events[i]];
      CollectPlus(p, events[..i], [events[i]]);
      CollectOne(p, events[i]);
      bs := bs + Given(p, events[i]);
      i := i + 1;
    }
    assert events[..|events|] == events;
  }

  /** The key count, and the piece with the signatures in it zeroed. */
  method ZeroSignatures(s: Scan, bs: seq<u8>) returns (keys: u8, passed: seq<u8>)
    ensures keys == KeysIn(s, bs) && passed == Unsigned(s, bs)
  {
    keys := s.keys;
    if s.used < 4 { keys := if 3 - s.used < |bs| then bs[3 - s.used] else 0; }
    var buf := new u8[|bs|](i requires 0 <= i < |bs| => bs[i]);
    assert buf[..] == bs;
    if keys > 0 {
      var n := ScriptLength(keys) - s.used;
      if 0 < n < |bs| {
        hide Zeros;
        ZeroFrom(buf, n);
        assert bs[..n] == buf[..][..n];
      }
    }
    passed := buf[..];
  }

  /** The loop that zeroes the signatures. */
  method ZeroFrom(buf: array<u8>, n: nat)
    requires n <= buf.Length
    modifies buf
    ensures buf[..] == old(buf[..n]) + Zeros(buf.Length - n)
  {
    var i := n;
    while i < buf.Length
      invariant n <= i <= buf.Length
      invariant buf[..n] == old(buf[..n]) && forall j | n <= j < i :: buf[j] == 0
    {
      buf[i] := 0;
      i := i + 1;
    }
    assert buf[..] == buf[..n] + Zeros(buf.Length - n);
  }

  /** The hash states of the signing session, with the reader of the first witness. */
  class Hasher {
    const hash: Hash
    var main: seq<u8>
    var source: seq<u8>
    var index: seq<u8>
    var count: u32
    var hardReject: bool
    var txHash: seq<u8>
    var isFirst: bool
    var args: First
    var firstDone: bool
    var final: seq<u8>
    var flagged: bool
    var multisig: bool
    var scan: Scan
    var refused: bool

    ghost predicate Valid()
      reads this
    {
      args.Parsing? ==> Sound(WitnessArgs(), args.st)
    }

    ghost function Abs(): Digest
      reads this
    {
      Digest(main, source, index, count, hardReject, txHash, isFirst, args, firstDone, final, flagged, multisig, scan, refused)
    }

    constructor (hash: Hash)
      ensures Valid() && Abs() == FRESH && this.hash == hash
    {
      this.hash := hash;
      main, source, index, count, hardReject := [], [], NO_INDEX, 0, false;
      txHash, isFirst, args, firstDone, final, flagged := [], false, Parsing(Init(WitnessArgs())), false, [], false;
      multisig, scan, refused := false, NO_SCAN, false;
      new;
      ArgsSound();
    }

    /** The state is zeroed. */
    method Reset()
      modifies this
      ensures Valid() && Abs() == FRESH
    {
      main, source, index, count, hardReject := [], [], NO_INDEX, 0, false;
      txHash, isFirst, args, firstDone, final, flagged := [], false, Parsing(Init(WitnessArgs())), false, [], false;
      multisig, scan, refused := false, NO_SCAN, false;
      ArgsSound();
    }

    /** `signing_multisig_input`, which the accounts keep. */
    method SetMultisig(multisig: bool)
      requires Valid()
      modifies `multisig
      ensures Valid() && Abs() == old(Abs()).(multisig := multisig)
    {
      this.multisig := multisig;
    }

    /** `process_witness`: runs the nested reader on the next piece of the first witness. */
    method ProcessFirst(bs: seq<u8>)
      requires Valid()
      modifies this
      ensures Valid() && Abs() == ReadFirst(old(Abs()), bs)
    {
      if !args.Parsing? { return; }
      ArgsSound();
      var chunk := new Cursor(bs);
      var log := new Trace();
      ghost var g := Go(WitnessArgs(), NUM_MAX, args.st, bs);
      var rv, st, ev := Parse(WitnessArgs(), NUM_MAX, args.st, chunk, log);
      assert log.events == ev;
      if rv == REJECT {
        args, main := Broken, [];
        return;
      }
      SamePass(Abs(), g.ev, log.events);
      hide Pass, Sound, Go;
      ghost var d := Abs();
      assert ReadFirst(d, bs) == Take(d, g);
      DeliverAll(log.events);
      Advance(rv, st);
    }

    /** The verdict of the first witness's reader. */
    method Advance(rv: Rv, st: St)
      requires rv == COMPLETE || (rv == INCOMPLETE && Sound(WitnessArgs(), st))
      modifies `args, `firstDone
      ensures Valid()
      ensures Abs() == if rv == COMPLETE then old(Abs()).(args := Parsed, firstDone := true) else old(Abs()).(args := Parsing(st))
    {
      if rv == COMPLETE { args, firstDone := Parsed, true; } else { args := Parsing(st); }
    }

    /** The callbacks of one call of the first witness's reader. */
    method DeliverAll(events: seq<Event>)
      requires Valid()
      modifies this
      ensures Valid() && Abs() == Pass(old(Abs()), events)
    {
      hide Sound;
      if multisig {
        MultisigView(events);
        var front := Gather(HeadPart, events);
        var lock := Gather(LockPart, events);
        var back := Gather(TypePart, events);
        main := main + front;
        HashLock(lock);
        main := main + back;
      } else {
        RewrittenView(events);
        Deliver(events);
      }
    }

    /** `witness_lock_arg_body_chunk`: copies the piece, with what follows the script in it zeroed. */
    method HashLock(bs: seq<u8>)
      requires Valid()
      modifies `main, `scan, `refused
      ensures Valid() && Abs() == LockPiece(old(Abs()), bs)
    {
      hide Sound, Unsigned;
      assert main + [] == main;
      if bs == [] { return; }
      if scan.used == 0 && bs[0] != 0 {
        refused := true;
        return;
      }
      var keys, passed := ZeroSignatures(scan, bs);
      main := main + passed;
      scan := Scan(scan.used + |bs|, keys);
    }

    /** The callbacks of the first witness. */
    method Deliver(events: seq<Event>)
      requires Valid()
      modifies this
      ensures Valid() && Abs() == Absorb(old(Abs()), Rewritten(events))
    {
      hide Rewritten1, Sound;
      var i := 0;
      assert main + [] == main;
      while i < |events|
        invariant i <= |events| && Valid()
        invariant Abs() == Absorb(old(Abs()), Rewritten(events[..i]))
      {
        RewrittenLast(events, i);
        AbsorbTwo(old(Abs()), Rewritten(events[..i]), Rewritten1(events[i]));
        main := main + Rewritten1(events[i]);
        i := i + 1;
      }
      assert events[..|events|] == events;
    }

    method OnLeafData(t: Tag, bs: seq<u8>)
      requires Valid()
      modifies this
      ensures Valid() && Abs() == OnLeaf(old(Abs()), t, bs)
    {
      hide Sound, Unpack;
      if t == InputCount {
        if |bs| == 4 { count := Unpack(bs); }
      } else if t == Version || t == Since {
        main := main + bs;
      } else if t == PrevIndex {
        index := bs;
      }
    }

    method OnPiece(t: Tag, bs: seq<u8>)
      requires Valid()
      modifies this
      ensures Valid() && Abs() == OnChunk(old(Abs()), t, bs)
    {
      hide Sound;
      if t == Source { source := source + bs; } else if t in HASHING.chunk { main := main + bs; }
    }

    method OnBodyPiece(t: Tag, bs: seq<u8>)
      requires Valid()
      modifies this
      ensures Valid() && Abs() == OnBody(old(Abs()), t, bs)
    {
      hide Sound, ReadFirst;
      if t == Witness {
        if isFirst { ProcessFirst(bs); } else { main := main + bs; }
      }
    }

    method OnNodeEnd(t: Tag)
      requires Valid()
      modifies this
      ensures Valid() && Abs() == OnEnd(hash, old(Abs()), t)
    {
      hide Sound, Zeros;
      match t {
        case Source => CloseSource();
        case Inputs => ClearUnion();
        case RawTx => if !flagged { txHash := hash(main); }
        case Witness => if isFirst && !firstDone { firstDone, main := true, txHash + SELF_WITNESS; }
        case Witnesses => final := hash(main);
        case _ =>
      }
    }

    method CloseSource()
      modifies `main, `source, `index
      ensures Abs() == OnEnd(hash, old(Abs()), Source)
    {
      main := main + (hash(source) + index);
      source, index := [], NO_INDEX;
    }

    /** `finish_inputs`. */
    method ClearUnion()
      modifies `txHash, `isFirst, `firstDone, `final, `scan
      ensures Abs() == OnEnd(hash, old(Abs()), Inputs)
    {
      txHash, isFirst, firstDone, final, scan := [], false, false, [], NO_SCAN;
    }

    method OnCount(e: Event)
      requires Valid() && (e.Offsets? || e.Length? || e.Index? || e.Size?)
      modifies this
      ensures Valid() && Abs() == OnInner(old(Abs()), e)
    {
      hide Sound, NewHeader, Init, WitnessArgs, Pack, Pack64;
      match e {
        case Offsets(t, ws) =>
          if t == RawTx { main := main + NewHeader(ws, count); }
        case Length(t, n) =>
          if t == Inputs {
            if n != count { hardReject := true; } else { main := main + Pack(n); }
          }
        case Index(t, i) =>
          if t == Witnesses { BeginWitness(i); }
        case Size(t, n) =>
          if t == Witness && !isFirst && n >= 4 { main := main + Pack64(n - 4); }
      }
    }

    /** `begin_witness`. */
    method BeginWitness(i: nat)
      requires Valid()
      modifies this
      ensures Valid() && Abs() == OnInner(old(Abs()), Index(Witnesses, i))
    {
      ArgsSound();
      hide Sound, Init, WitnessArgs;
      isFirst := i == 0;
      if isFirst { main, args, scan := txHash, Parsing(Init(WitnessArgs())), NO_SCAN; }
    }

    /** One callback. */
    method On(e: Event)
      requires Valid()
      modifies this
      ensures Valid() && Abs() == Apply(hash, old(Abs()), e)
    {
      hide OnLeaf, OnChunk, OnBody, OnEnd, OnInner, Sound;
      match e {
        case Leaf(t, bs) => OnLeafData(t, bs);
        case Chunk(t, bs) => OnPiece(t, bs);
        case Body(t, bs) => OnBodyPiece(t, bs);
        case Start(t) => if t == Input { source, index := [], NO_INDEX; }
        case End(t) => OnNodeEnd(t);
        case _ => OnCount(e);
      }
    }
  }

  /** The chunks carry a signable message. */
  ghost predicate Carry(chunks: seq<seq<u8>>, v: Val, a: Val) {
    Signable(v, a) && chunks != [] && Join(chunks) == Encode(AnnotatedTx(), v)
  }

  /** Reads a whole message, chunk by chunk, and runs the callbacks it fires, in a session in which a
      multisig input is signed or not. */
  method Digests(hash: Hash, multisig: bool, chunks: seq<seq<u8>>) returns (rv: Rv, h: Hasher)
    ensures h.Valid() && h.hash == hash
    ensures IsHash(hash) && !multisig ==> forall v, a | Carry(chunks, v, a) :: rv == COMPLETE && Digested(hash, v, a, h.Abs())
  {
    MessagesRegular();
    RegularWf(AnnotatedTx());
    hide *;
    var st, used, log;
    rv, st, used, log := ParseAll(AnnotatedTx(), NUM_MAX, chunks);
    var events := log.events;
    h := new Hasher(hash);
    h.SetMultisig(multisig);
    var i := 0;
    ghost var all := Run(hash, FRESH.(multisig := multisig), events);
    assert events[0..] == events;
    while i < |events|
      invariant i <= |events| && h.Valid() && h.hash == hash
      invariant Run(hash, h.Abs(), events[i..]) == all
    {
      RunStep(hash, h.Abs(), events, i);
      h.On(events[i]);
      i := i + 1;
    }
    RunNone(hash, h.Abs(), events[i..]);
    if IsHash(hash) && !multisig {
      forall v, a | Carry(chunks, v, a) ensures Signable(v, a) && rv == COMPLETE && Digested(hash, v, a, all) {
        LogDigest(hash, v, a, chunks, rv, st, events, used);
      }
    }
  }

  lemma {:induction false} RunStep(H: Hash, d: Digest, ev: seq<Event>, i: nat)
    requires i < |ev|
    ensures Run(H, d, ev[i..]) == Run(H, Apply(H, d, ev[i]), ev[i + 1..])
  {
    assert ev[i..][0] == ev[i] && ev[i..][1..] == ev[i + 1..];
    hide Apply;
  }

  lemma {:induction false} RunNone(H: Hash, d: Digest, ev: seq<Event>)
    requires ev == []
    ensures Run(H, d, ev) == d
  {
  }

  /** Any log that agrees with the reader's result yields the digest. */
  lemma {:induction false} LogDigest(H: Hash, v: Val, a: Val, chunks: seq<seq<u8>>, rv: Rv, st: St, ev: seq<Event>, used: int)
    requires IsHash(H) && Carry(chunks, v, a)
    requires Agrees(AnnotatedTx(), Feed(AnnotatedTx(), NUM_MAX, Init(AnnotatedTx()), chunks), rv, st, ev, used)
    ensures Signable(v, a) && rv == COMPLETE && Digested(H, v, a, Run(H, FRESH.(multisig := false), ev))
  {
    SignedWhole(H, v, a, false, chunks);
    assert FRESH.(multisig := false) == FRESH;
    MessageAnti();
    FreshCalm();
    var r := Feed(AnnotatedTx(), NUM_MAX, Init(AnnotatedTx()), chunks);
    assert rv == r.rv && View(HASHING, ev) == View(HASHING, r.ev) by { hide Feed, Digested, Signable, View; }
    hide *;
    RunView(H, FRESH, ev);
    RunView(H, FRESH, r.ev);
  }
}
