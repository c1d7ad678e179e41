/** The resumable readers: they take a chunk of the message, go as far as it reaches, fire the
    registered callbacks on the way, and carry on at the next call from the state they left. */
module Reader {
  import opened Words
  import opened Schema
  import opened Automaton
  import opened Views
  import opened Lifting
  import opened Runs

  /** `struct mol_chunk`: some bytes of the message and how many of them are consumed. */
  class Cursor {
    const bytes: seq<u8>
    var consumed: nat

    constructor (bs: seq<u8>)
      ensures bytes == bs && consumed == 0 && Valid() && Left() == bs
    {
      bytes := bs;
      consumed := 0;
    }

    ghost predicate Valid()
      reads this
    {
      consumed <= |bytes|
    }

    ghost function Left(): seq<u8>
      requires Valid()
      reads this
    {
      bytes[consumed..]
    }
  }

  /** The callbacks fired so far. */
  class Trace {
    var events: seq<Event>

    constructor ()
      ensures events == []
    {
      events := [];
    }

    method Fire(ev: seq<Event>)
      modifies this
      ensures events == old(events) + ev
    {
      events := events + ev;
    }
  }

  /** Arrays are not empty. */
  predicate Wf(s: Schema) {
    match s
    case Array(_, n) => n > 0
    case Struct(_, fields) => forall i | 0 <= i < |fields| :: Wf(fields[i])
    case Table(_, fields) => forall i | 0 <= i < |fields| :: Wf(fields[i])
    case FixVec(_, item, _) => Wf(item)
    case DynVec(_, item) => Wf(item)
    case Option(_, item) => Wf(item)
    case _ => true
  }

  /** A state a reader may be called in. */
  predicate Sound(s: Schema, st: St) {
    match st
    case Buf(buf) => s.IsLeaf() && |buf| < FixedSize(s)
    case Hdr(_, _, part) => !s.IsLeaf() && |part| < 4
    case Raw(len, got) => s.Bytes? && got <= len
    case Kids(nums, count, k, child) =>
      Fits(s, nums, count) && k <= count && (k < count ==> Sound(ChildOf(s, nums, count, k), child))
  }

  lemma {:induction false} InitSound(s: Schema)
    requires Wf(s)
    ensures Sound(s, Init(s))
  {
  }

  lemma {:induction false} KidWf(s: Schema, nums: seq<u32>, count: nat, k: nat)
    requires Wf(s) && Fits(s, nums, count)
    ensures k < count ==> Wf(ChildOf(s, nums, count, k))
    ensures k <= count ==> Sound(s, Kids(nums, count, k, FirstKid(s, nums, count, k)))
  {
  }

  // ---------- The readers ----------

  lemma {:induction false} SliceOn(bs: seq<u8>, a: nat, b: nat, c: nat)
    requires a <= b <= c <= |bs|
    ensures bs[a..b] + bs[b..][..c - b] == bs[a..c] && bs[b..][c - b..] == bs[c..]
  {
  }

  /** `mol_parse_bytes`: copies what the chunk offers, up to `total` bytes. */
  method ParseBytes(buf: seq<u8>, total: nat, chunk: Cursor) returns (buf': seq<u8>, done: bool)
    requires chunk.Valid() && |buf| < total
    modifies chunk
    ensures chunk.Valid()
    ensures var needed, left := total - |buf|, old(chunk.Left());
            && done == (|left| >= needed)
            && chunk.consumed == old(chunk.consumed) + (if done then needed else |left|)
            && buf' == buf + (if done then left[..needed] else left)
            && chunk.Left() == (if done then left[needed..] else [])
  {
    var available := |chunk.bytes| - chunk.consumed;
    var needed := total - |buf|;
    var copy := if needed < available then needed else available;
    buf' := buf + chunk.bytes[chunk.consumed..chunk.consumed + copy];
    assert chunk.bytes[chunk.consumed..chunk.consumed + copy] == chunk.Left()[..copy];
    assert chunk.Left()[copy..] == chunk.bytes[chunk.consumed + copy..];
    chunk.consumed := chunk.consumed + copy;
    done := copy == needed;
  }

  /** A call that returned `rv`, left the state `st`, fired `ev` and consumed `used` bytes did
      what the automaton does. */
  ghost predicate Agrees(s: Schema, g: Res, rv: Rv, st: St, ev: seq<Event>, used: int) {
    used >= 0 && Eqv(s, g, Res(rv, st, ev, used))
  }

  /** Every reader. The result is that of the one-byte-at-a-time automaton on the bytes left in
      the chunk. */
  method Parse(s: Schema, size: u32, st: St, chunk: Cursor, log: Trace) returns (rv: Rv, st': St, ghost ev: seq<Event>)
    requires Wf(s) && Sound(s, st) && chunk.Valid()
    modifies chunk, log
    ensures chunk.Valid() && log.events == old(log.events) + ev
    ensures Agrees(s, Go(s, size, st, old(chunk.Left())), rv, st', ev, chunk.consumed - old(chunk.consumed))
    ensures rv == INCOMPLETE ==> Sound(s, st')
    decreases s, 1
  {
    if s.IsLeaf() {
      rv, st', ev := ParseLeaf(s, size, st, chunk, log);
    } else if s.Bytes? {
      rv, st', ev := ParseByteString(s, size, st, chunk, log);
    } else {
      rv, st', ev := ParseNode(s, size, st, chunk, log);
    }
  }

  /** `MolReader_byte_parse` and the fixed arrays. Only the byte reader looks at the size. */
  method ParseLeaf(s: Schema, size: u32, st: St, chunk: Cursor, log: Trace) returns (rv: Rv, st': St, ghost ev: seq<Event>)
    requires Wf(s) && s.IsLeaf() && Sound(s, st) && chunk.Valid()
    modifies chunk, log
    ensures chunk.Valid() && log.events == old(log.events) + ev
    ensures Agrees(s, Go(s, size, st, old(chunk.Left())), rv, st', ev, chunk.consumed - old(chunk.consumed))
    ensures rv == INCOMPLETE ==> Sound(s, st')
  {
    ghost var input := chunk.Left();
    ghost var p := Poke(s, size, st);
    assert p == PokeIn(s, size, st);
    if s.Byte? && size != 1 {
      return REJECT, st, [];
    }
    GoOnStill(s, size, st, input);
    BufFold(s, size, st.buf, input);
    var buf, done := ParseBytes(st.buf, FixedSize(s), chunk);
    if !done {
      return INCOMPLETE, Buf(buf), [];
    }
    log.Fire([Leaf(s.tag, buf)]);
    return COMPLETE, Buf(buf), [Leaf(s.tag, buf)];
  }

  /** A header word inside a call that has consumed the bytes `pre`. */
  lemma {:induction false} WordIn(s: Schema, size: u32, st: St, bs: seq<u8>, g: Res, ev: seq<Event>, pre: seq<u8>)
    requires !s.IsLeaf() && Sound(s, st) && st.Hdr? && HeadOf(s, size, st.nums, st.seen) == More
    requires Eqv(s, g, Owing(s, ev, pre, Go(s, size, st, bs)))
    ensures var n := 4 - |st.part|;
            |bs| >= n ==>
              var next := Hdr(Retain(s, st.nums, Unpack(st.part + bs[..n])), st.seen + 1, []);
              Eqv(s, g, Owing(s, ev, pre + bs[..n], Go(s, size, next, bs[n..])))
    ensures |bs| < 4 - |st.part| ==>
              Eqv(s, g, Res(INCOMPLETE, Hdr(st.nums, st.seen, st.part + bs), ev + [Chunk(s.tag, pre + bs)], |pre + bs|))
  {
    var n := 4 - |st.part|;
    var cur := Go(s, size, st, bs);
    HdrGo(s, size, st.nums, st.seen, st.part, bs);
    assert ev + [] == ev;
    if |bs| >= n {
      var next := Hdr(Retain(s, st.nums, Unpack(st.part + bs[..n])), st.seen + 1, []);
      ToNext(s, g, ev, pre, cur, [], bs[..n], Go(s, size, next, bs[n..]));
    } else {
      assert [] + [Chunk(s.tag, bs)] == [Chunk(s.tag, bs)];
      ToRest(s, g, ev, pre, cur, Hdr(st.nums, st.seen, st.part + bs), [], bs);
    }
  }

  /** The one header word of a byte string or fixvec, or one of the header words of a table or
      dynvec. */
  method ParseWord(s: Schema, size: u32, st: St, chunk: Cursor, ghost g: Res, ghost ev: seq<Event>, ghost pre: seq<u8>)
    returns (done: bool, st': St, ghost pre': seq<u8>)
    requires !s.IsLeaf() && Sound(s, st) && st.Hdr? && chunk.Valid()
    requires HeadOf(s, size, st.nums, st.seen) == More
    requires Eqv(s, g, Owing(s, ev, pre, Go(s, size, st, chunk.Left())))
    modifies chunk
    ensures chunk.Valid() && st'.Hdr? && Sound(s, st')
    ensures chunk.consumed - old(chunk.consumed) == |pre'| - |pre|
    ensures |pre| <= |pre'| && pre' == pre + old(chunk.Left())[..|pre'| - |pre|]
    ensures done ==> |pre| < |pre'| && Eqv(s, g, Owing(s, ev, pre', Go(s, size, st', chunk.Left())))
    ensures done ==> st'.nums != []
    ensures !done ==> Eqv(s, g, Res(INCOMPLETE, st', ev + [Chunk(s.tag, pre')], |pre'|))
  {
    ghost var input := chunk.Left();
    WordIn(s, size, st, input, g, ev, pre);
    var part;
    part, done := ParseBytes(st.part, 4, chunk);
    if done {
      st', pre' := Hdr(Retain(s, st.nums, Unpack(part)), st.seen + 1, []), pre + input[..4 - |st.part|];
    } else {
      assert input[..|input|] == input;
      st', pre' := Hdr(st.nums, st.seen, part), pre + input;
    }
  }

  /** All header words the chunk offers. */
  method ParseHeader(s: Schema, size: u32, st: St, chunk: Cursor, ghost g: Res)
    returns (done: bool, st': St, ghost pre: seq<u8>)
    requires !s.IsLeaf() && Sound(s, st) && chunk.Valid()
    requires g == Go(s, size, st, chunk.Left())
    modifies chunk
    ensures chunk.Valid() && Sound(s, st') && (st'.Hdr? || st' == st)
    ensures old(chunk.consumed) <= chunk.consumed && pre == chunk.bytes[old(chunk.consumed)..chunk.consumed]
    ensures !done ==> Eqv(s, g, Res(INCOMPLETE, st', [Chunk(s.tag, pre)], |pre|))
    ensures done ==> Eqv(s, g, Owing(s, [], pre, Go(s, size, st', chunk.Left())))
    ensures done && st'.Hdr? ==> !HeadOf(s, size, st'.nums, st'.seen).More?
  {
    hide Go, Same, HeadOf, Sound;
    pre, st', done := [], st, true;
    OweNothing(s, g);
    while st'.Hdr? && HeadOf(s, size, st'.nums, st'.seen).More?
      invariant chunk.Valid() && Sound(s, st') && (st'.Hdr? || st' == st)
      invariant old(chunk.consumed) <= chunk.consumed && pre == chunk.bytes[old(chunk.consumed)..chunk.consumed]
      invariant Eqv(s, g, Owing(s, [], pre, Go(s, size, st', chunk.Left())))
      decreases |chunk.bytes| - chunk.consumed
    {
      ghost var from := chunk.consumed;
      done, st', pre := ParseWord(s, size, st', chunk, g, [], pre);
      SliceOn(chunk.bytes, old(chunk.consumed), from, chunk.consumed);
      if !done {
        assert [] + [Chunk(s.tag, pre)] == [Chunk(s.tag, pre)];
        return;
      }
    }
  }

  lemma {:induction false} DropOwed(s: Schema, g: Res, ev: seq<Event>, pre: seq<u8>, cur: Res)
    requires s.Bytes? && Eqv(s, g, Owing(s, ev, pre, cur))
    ensures Eqv(s, g, Then(ev, |pre|, cur))
  {
    forall K | Anti(K, s) ensures View(K, ev + [Chunk(s.tag, pre)] + cur.ev) == View(K, ev + cur.ev) {
      DropPiece(K, s, ev, pre, cur.ev);
    }
  }

  lemma {:induction false} AddPiece(s: Schema, a: seq<Event>, bs: seq<u8>, z: seq<Event>)
    requires s.Bytes?
    ensures Same(s, a + z, a + [Chunk(s.tag, bs)] + z)
  {
    forall K | Anti(K, s) ensures View(K, a + z) == View(K, a + [Chunk(s.tag, bs)] + z) {
      DropPiece(K, s, a, bs, z);
    }
  }

  /** `MolReader_Bytes_parse`. It does not pass the bytes of this call to `chunk` when it runs
      out inside the body. */
  method ParseByteString(s: Schema, size: u32, st: St, chunk: Cursor, log: Trace) returns (rv: Rv, st': St, ghost ev: seq<Event>)
    requires s.Bytes? && Sound(s, st) && chunk.Valid()
    modifies chunk, log
    ensures chunk.Valid() && log.events == old(log.events) + ev
    ensures Agrees(s, Go(s, size, st, old(chunk.Left())), rv, st', ev, chunk.consumed - old(chunk.consumed))
    ensures rv == INCOMPLETE ==> Sound(s, st')
  {
    var t, start := s.tag, chunk.consumed;
    ghost var g := Go(s, size, st, chunk.Left());
    var done;
    ghost var pre;
    done, st', pre := ParseHeader(s, size, st, chunk, g);
    if !done {
      log.Fire([Chunk(t, chunk.bytes[start..chunk.consumed])]);
      return INCOMPLETE, st', [Chunk(t, pre)];
    }
    ev := [];
    if st'.Hdr? {
      var fits;
      fits, st', ev := OpenBody(s, size, st', chunk, log, g, pre);
      if !fits {
        return REJECT, st', [];
      }
    }
    ghost var body, from := Go(s, size, st', chunk.Left()), chunk.consumed;
    ghost var ev';
    rv, st', ev' := ParseBody(s, size, st', chunk, log, start);
    BodyIn(s, g, ev, pre, body, Res(rv, st', ev', chunk.consumed - from));
    ev := ev + ev';
  }

  /** The length is known: is it acceptable? */
  method OpenBody(s: Schema, size: u32, st: St, chunk: Cursor, log: Trace, ghost g: Res, ghost pre: seq<u8>)
    returns (fits: bool, st': St, ghost ev: seq<Event>)
    requires s.Bytes? && st.Hdr? && Sound(s, st) && chunk.Valid() && !HeadOf(s, size, st.nums, st.seen).More?
    requires Eqv(s, g, Owing(s, [], pre, Go(s, size, st, chunk.Left())))
    modifies log
    ensures log.events == old(log.events) + ev
    ensures fits ==> st'.Raw? && Sound(s, st') && Eqv(s, g, Owing(s, ev, pre, Go(s, size, st', chunk.Left())))
    ensures !fits ==> ev == [] && g.rv == REJECT && g.used == |pre|
  {
    var head := HeadOf(s, size, st.nums, st.seen);
    HeadGo(s, size, st, chunk.Left());
    if head.Bad? {
      return false, st, [];
    }
    RawIn(s, size, st, chunk.Left(), g, pre);
    log.Fire([Size(s.tag, Low32(head.count + 4))]);
    return true, Raw(st.nums[0], 0), [Size(s.tag, Low32(head.count + 4))];
  }

  lemma {:induction false} RawIn(s: Schema, size: u32, st: St, bs: seq<u8>, g: Res, pre: seq<u8>)
    requires s.Bytes? && st.Hdr? && Sound(s, st) && HeadOf(s, size, st.nums, st.seen).Ready?
    requires Eqv(s, g, Owing(s, [], pre, Go(s, size, st, bs)))
    ensures Sound(s, Raw(st.nums[0], 0))
    ensures Eqv(s, g, Owing(s, EnterEv(s, st.nums, HeadOf(s, size, st.nums, st.seen).count), pre,
                            Go(s, size, Raw(st.nums[0], 0), bs)))
  {
    var ev := EnterEv(s, st.nums, HeadOf(s, size, st.nums, st.seen).count);
    EnterGo(s, size, st.nums, st.seen, st.part, bs);
    EnterInner(s, st.nums, HeadOf(s, size, st.nums, st.seen).count);
    ToEnter(s, g, [], pre, Go(s, size, st, bs), ev, Go(s, size, Raw(st.nums[0], 0), bs));
    assert [] + ev == ev;
  }

  lemma {:induction false} BodyIn(s: Schema, g: Res, ev: seq<Event>, pre: seq<u8>, body: Res, r: Res)
    requires s.Bytes? && Eqv(s, g, Owing(s, ev, pre, body)) && Eqv(s, body, r)
    ensures Eqv(s, g, Res(r.rv, r.st, ev + r.ev, |pre| + r.used))
  {
    EqvOwing(s, ev, pre, body, r);
    DropOwed(s, g, ev, pre, r);
  }

  /** The body of a byte string: passed to `body_chunk` piece by piece. */
  method ParseBody(s: Schema, size: u32, st: St, chunk: Cursor, log: Trace, start: nat)
    returns (rv: Rv, st': St, ghost ev: seq<Event>)
    requires s.Bytes? && st.Raw? && Sound(s, st) && chunk.Valid() && start <= chunk.consumed
    modifies chunk, log
    ensures chunk.Valid() && log.events == old(log.events) + ev
    ensures Agrees(s, Go(s, size, st, old(chunk.Left())), rv, st', ev, chunk.consumed - old(chunk.consumed))
    ensures rv == INCOMPLETE ==> Sound(s, st')
  {
    var t := s.tag;
    ghost var input := chunk.Left();
    ghost var g := Go(s, size, st, input);
    var needed := st.len - st.got;
    var available := |chunk.bytes| - chunk.consumed;
    var copy := if needed < available then needed else available;
    var piece := chunk.bytes[chunk.consumed..chunk.consumed + copy];
    assert piece == input[..copy];
    if needed > 0 {
      log.Fire([Body(t, piece)]);
      GoOnStill(s, size, st, input);
      RawFold(s, size, st.len, st.got, input);
    }
    chunk.consumed := chunk.consumed + copy;
    st' := Raw(st.len, st.got + copy);
    if st'.got < st'.len {
      assert piece == input;
      return INCOMPLETE, st', [Body(t, piece)];
    }
    var bytes := chunk.bytes[start..chunk.consumed];
    log.Fire([Chunk(t, bytes), End(t)]);
    ev := if needed > 0 then [Body(t, piece)] else [];
    AddPiece(s, ev, bytes, [End(t)]);
    assert ev + [Chunk(t, bytes)] + [End(t)] == ev + [Chunk(t, bytes), End(t)];
    if needed == 0 {
      assert PokeIn(s, size, st) == Out(COMPLETE, st, []);
      var p := Poke(s, size, st);
      assert p.ev == [] + [Chunk(t, [])] + [End(t)];
      AddPiece(s, [], [], [End(t)]);
      AddPiece(s, [], bytes, [End(t)]);
      assert [] + [Chunk(t, [])] + [End(t)] == p.ev;
    }
    return COMPLETE, st', ev + [Chunk(t, bytes), End(t)];
  }

  // ---------- Structs, vectors, tables and options ----------

  lemma {:induction false} EnterFits(s: Schema, size: u32, nums: seq<u32>, seen: nat)
    requires !s.IsLeaf() && !s.Bytes? && HeadOf(s, size, nums, seen).Ready?
    ensures Fits(s, nums, HeadOf(s, size, nums, seen).count)
  {
  }

  /** The generated readers of structs, tables, fixvecs, dynvecs and options: header words, then
      one child after the other. */
  method ParseNode(s: Schema, size: u32, st: St, chunk: Cursor, log: Trace) returns (rv: Rv, st': St, ghost ev: seq<Event>)
    requires Wf(s) && !s.IsLeaf() && !s.Bytes? && Sound(s, st) && chunk.Valid()
    modifies chunk, log
    ensures chunk.Valid() && log.events == old(log.events) + ev
    ensures Agrees(s, Go(s, size, st, old(chunk.Left())), rv, st', ev, chunk.consumed - old(chunk.consumed))
    ensures rv == INCOMPLETE ==> Sound(s, st')
    decreases s, 0, 1
  {
    var t, start := s.tag, chunk.consumed;
    ghost var g := Go(s, size, st, chunk.Left());
    var done;
    ghost var pre;
    done, st', pre := ParseHeader(s, size, st, chunk, g);
    if !done {
      log.Fire([Chunk(t, chunk.bytes[start..chunk.consumed])]);
      return INCOMPLETE, st', [Chunk(t, pre)];
    }
    ev := [];
    if st'.Hdr? {
      rv, st', ev := OpenKids(s, size, st', chunk, log, start, g, pre);
      if rv != INCOMPLETE {
        return;
      }
    }
    ghost var ev';
    rv, st', ev' := ParseKids(s, size, st', chunk, log, start, g, ev, pre);
    ev := ev + ev';
  }

  /** The header is complete: is it acceptable, and does anything follow? `INCOMPLETE` means that
      the children follow. */
  method OpenKids(s: Schema, size: u32, st: St, chunk: Cursor, log: Trace, start: nat, ghost g: Res, ghost pre: seq<u8>)
    returns (rv: Rv, st': St, ghost ev: seq<Event>)
    requires Wf(s) && !s.IsLeaf() && !s.Bytes? && st.Hdr? && Sound(s, st) && !HeadOf(s, size, st.nums, st.seen).More?
    requires chunk.Valid() && start <= chunk.consumed && pre == chunk.bytes[start..chunk.consumed]
    requires Eqv(s, g, Owing(s, [], pre, Go(s, size, st, chunk.Left())))
    modifies log
    ensures log.events == old(log.events) + ev
    ensures rv != INCOMPLETE ==> Agrees(s, g, rv, st', ev, |pre|)
    ensures rv == INCOMPLETE ==> st'.Kids? && Sound(s, st') && Eqv(s, g, Owing(s, ev, pre, Go(s, size, st', chunk.Left())))
  {
    var t, head := s.tag, HeadOf(s, size, st.nums, st.seen);
    HeadGo(s, size, st, chunk.Left());
    if head.Bad? {
      return REJECT, st, [];
    }
    if head.Empty? {
      log.Fire([Chunk(t, chunk.bytes[start..chunk.consumed]), End(t)]);
      ToEnd(s, g, [], pre, Go(s, size, st, chunk.Left()));
      assert [] + [Chunk(t, pre), End(t)] == [Chunk(t, pre), End(t)];
      return COMPLETE, st, [Chunk(t, pre), End(t)];
    }
    log.Fire(EnterEv(s, st.nums, head.count));
    EnterIn(s, size, st, chunk.Left(), g, pre);
    return INCOMPLETE, Kids(st.nums, head.count, 0, FirstKid(s, st.nums, head.count, 0)), EnterEv(s, st.nums, head.count);
  }

  lemma {:induction false} EnterIn(s: Schema, size: u32, st: St, bs: seq<u8>, g: Res, pre: seq<u8>)
    requires Wf(s) && !s.IsLeaf() && !s.Bytes? && st.Hdr? && Sound(s, st)
    requires HeadOf(s, size, st.nums, st.seen).Ready?
    requires Eqv(s, g, Owing(s, [], pre, Go(s, size, st, bs)))
    ensures var count := HeadOf(s, size, st.nums, st.seen).count;
            var next := Kids(st.nums, count, 0, FirstKid(s, st.nums, count, 0));
            Sound(s, next) && Eqv(s, g, Owing(s, EnterEv(s, st.nums, count), pre, Go(s, size, next, bs)))
  {
    var count := HeadOf(s, size, st.nums, st.seen).count;
    var ev := EnterEv(s, st.nums, count);
    EnterGo(s, size, st.nums, st.seen, st.part, bs);
    EnterInner(s, st.nums, count);
    EnterFits(s, size, st.nums, st.seen);
    KidWf(s, st.nums, count, 0);
    ToEnter(s, g, [], pre, Go(s, size, st, bs), ev, Go(s, size, Kids(st.nums, count, 0, FirstKid(s, st.nums, count, 0)), bs));
    assert [] + ev == ev;
  }

  /** The children, from the one at work. `start` is where this call of the reader began, and
      `pre` are the bytes it has consumed so far. */
  method ParseKids(s: Schema, size: u32, st: St, chunk: Cursor, log: Trace, start: nat,
                   ghost g: Res, ghost before: seq<Event>, ghost pre: seq<u8>)
    returns (rv: Rv, st': St, ghost ev: seq<Event>)
    requires Wf(s) && st.Kids? && Sound(s, st) && chunk.Valid()
    requires start <= chunk.consumed && pre == chunk.bytes[start..chunk.consumed]
    requires Eqv(s, g, Owing(s, before, pre, Go(s, size, st, chunk.Left())))
    modifies chunk, log
    ensures chunk.Valid() && log.events == old(log.events) + ev
    ensures Agrees(s, g, rv, st', before + ev, chunk.consumed - start)
    ensures rv == INCOMPLETE ==> Sound(s, st')
    decreases s, 0, 0
  {
    var t := s.tag;
    st', ev := st, [];
    ghost var done := pre;
    assert before + [] == before;
    while st'.k < st'.count
      invariant chunk.Valid() && st'.Kids? && Sound(s, st')
      invariant start <= chunk.consumed && done == chunk.bytes[start..chunk.consumed]
      invariant log.events == old(log.events) + ev
      invariant Eqv(s, g, Owing(s, before + ev, done, Go(s, size, st', chunk.Left())))
      decreases st'.count - st'.k
    {
      ghost var evc;
      rv, st', evc, done := ParseKid(s, size, st', chunk, log, start, g, before + ev, done);
      assert before + ev + evc == before + (ev + evc);
      ev := ev + evc;
      if rv != COMPLETE {
        return;
      }
    }
    log.Fire([Chunk(t, chunk.bytes[start..chunk.consumed]), End(t)]);
    KidsOver(s, size, st', chunk.Left());
    ToEnd(s, g, before + ev, done, Go(s, size, st', chunk.Left()));
    assert before + ev + [Chunk(t, done), End(t)] == before + (ev + [Chunk(t, done), End(t)]);
    return COMPLETE, st', ev + [Chunk(t, done), End(t)];
  }

  /** `MOL_CALL_SUBPARSER`: one call of the child at work; when it is complete, the next one is
      initialised, else the bytes of this call are passed on. */
  method ParseKid(s: Schema, size: u32, st: St, chunk: Cursor, log: Trace, start: nat,
                  ghost g: Res, ghost before: seq<Event>, ghost pre: seq<u8>)
    returns (rv: Rv, st': St, ghost ev: seq<Event>, ghost pre': seq<u8>)
    requires Wf(s) && st.Kids? && Sound(s, st) && st.k < st.count && chunk.Valid()
    requires start <= chunk.consumed && pre == chunk.bytes[start..chunk.consumed]
    requires Eqv(s, g, Owing(s, before, pre, Go(s, size, st, chunk.Left())))
    modifies chunk, log
    ensures chunk.Valid() && log.events == old(log.events) + ev
    ensures start <= chunk.consumed && pre' == chunk.bytes[start..chunk.consumed]
    ensures rv != REJECT ==> st'.Kids? && Sound(s, st')
    ensures rv == COMPLETE ==> st'.count == st.count && st'.k == st.k + 1
    ensures rv == COMPLETE ==> Eqv(s, g, Owing(s, before + ev, pre', Go(s, size, st', chunk.Left())))
    ensures rv != COMPLETE ==> Agrees(s, g, rv, st', before + ev, chunk.consumed - start)
    decreases s, 0, 0, 0
  {
    hide Go, Eqv, Agrees, BetweenEv, FirstKid, ChildOf, ChildSize;
    var t := s.tag;
    var nums, count, k, child := st.nums, st.count, st.k, st.child;
    ghost var input, from := chunk.Left(), chunk.consumed;
    KidWf(s, nums, count, k);
    rv, child, ev := Parse(ChildOf(s, nums, count, k), ChildSize(s, size, nums, count, k), child, chunk, log);
    ghost var used := chunk.consumed - from;
    KidIn(s, size, st, input, rv, child, ev, used, g, before, pre);
    SliceOn(chunk.bytes, start, from, chunk.consumed);
    pre' := chunk.bytes[start..chunk.consumed];
    if rv != COMPLETE {
      log.Fire([Chunk(t, chunk.bytes[start..chunk.consumed])]);
      Associate(before, ev, [Chunk(t, pre')]);
      st', ev := Kids(nums, count, k, child), ev + [Chunk(t, pre')];
    } else {
      log.Fire(BetweenEv(s, k));
      KidWf(s, nums, count, k + 1);
      Associate(before, ev, BetweenEv(s, k));
      st', ev := Kids(nums, count, k + 1, FirstKid(s, nums, count, k + 1)), ev + BetweenEv(s, k);
    }
  }

  lemma {:induction false} Associate(a: seq<Event>, b: seq<Event>, c: seq<Event>)
    ensures a + b + c == a + (b + c)
  {
  }

  /** The call of one child, inside a call that has fired `ev` and consumed `pre`. */
  lemma {:induction false} KidIn(s: Schema, size: u32, st: St, bs: seq<u8>, rv: Rv, child: St, evc: seq<Event>, used: int,
              g: Res, ev: seq<Event>, pre: seq<u8>)
    requires st.Kids? && Sound(s, st) && st.k < st.count
    requires var c := ChildOf(s, st.nums, st.count, st.k);
             Agrees(c, Go(c, ChildSize(s, size, st.nums, st.count, st.k), st.child, bs), rv, child, evc, used)
    requires Eqv(s, g, Owing(s, ev, pre, Go(s, size, st, bs)))
    ensures rv == COMPLETE ==>
      Eqv(s, g, Owing(s, ev + evc + BetweenEv(s, st.k), pre + bs[..used],
                      Go(s, size, Kids(st.nums, st.count, st.k + 1, FirstKid(s, st.nums, st.count, st.k + 1)), bs[used..])))
    ensures rv != COMPLETE ==>
      Agrees(s, g, rv, Kids(st.nums, st.count, st.k, child), ev + evc + [Chunk(s.tag, pre + bs[..used])], |pre| + used)
  {
    var nums, count, k := st.nums, st.count, st.k;
    var cur := Go(s, size, st, bs);
    match rv {
      case COMPLETE =>
        KidDone(s, size, nums, count, k, st.child, bs, evc, used);
        ToNext(s, g, ev, pre, cur, evc + BetweenEv(s, k), bs[..used],
               Go(s, size, Kids(nums, count, k + 1, FirstKid(s, nums, count, k + 1)), bs[used..]));
        assert ev + (evc + BetweenEv(s, k)) == ev + evc + BetweenEv(s, k);
      case INCOMPLETE =>
        KidWaits(s, size, nums, count, k, st.child, bs, child, evc);
        ToRest(s, g, ev, pre, cur, Kids(nums, count, k, child), evc, bs);
        assert bs[..used] == bs;
      case REJECT =>
        LiftGo(s, size, nums, count, k, st.child, bs);
    }
  }

  lemma {:induction false} KidsOver(s: Schema, size: u32, st: St, bs: seq<u8>)
    requires st.Kids? && Sound(s, st) && st.k >= st.count
    ensures var r := Go(s, size, st, bs);
            r.rv == COMPLETE && r.used == 0 && r.ev == [Chunk(s.tag, []), End(s.tag)]
  {
    assert PokeIn(s, size, st) == Out(COMPLETE, st, []);
  }
}
