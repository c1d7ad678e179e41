/** A message that arrives in chunks. */
module Chunking {
  import opened Words
  import opened Schema
  import opened Automaton
  import opened Views
  import opened Lifting
  import opened Encoding
  import opened RoundTrip
  import opened Reader

  /** The reader is called once per chunk, until it returns a verdict. */
  function Feed(s: Schema, size: u32, st: St, chunks: seq<seq<u8>>): Res
    decreases |chunks|
  {
    if chunks == [] then Res(INCOMPLETE, st, [], 0)
    else
      var r := Go(s, size, st, chunks[0]);
      if r.rv != INCOMPLETE then r else Then(r.ev, r.used, Feed(s, size, r.st, chunks[1..]))
  }

  /** Feeding chunks is one call on their concatenation. */
  lemma {:induction false} FeedIsGo(s: Schema, size: u32, st: St, chunks: seq<seq<u8>>)
    requires Shaped(s, st) && chunks != []
    ensures Eqv(s, Feed(s, size, st, chunks), Go(s, size, st, Join(chunks)))
    decreases |chunks|
  {
    var r, rest := Go(s, size, st, chunks[0]), chunks[1..];
    GoSplit(s, size, st, chunks[0], Join(rest));
    if r.rv == INCOMPLETE {
      GoStill(s, size, st, chunks[0]);
      if rest == [] {
        assert Join(chunks) == chunks[0] + [] == chunks[0];
        assert r.ev + [] == r.ev;
      } else {
        StillShaped(s, size, r.st);
        FeedIsGo(s, size, r.st, rest);
        EqvThen(s, r.ev, r.ev, r.used, Feed(s, size, r.st, rest), Go(s, size, r.st, Join(rest)));
      }
    }
  }

  /** However a byte stream is cut into chunks, empty ones included, the reader reaches the same
      verdict after the same number of bytes, rests in the same state, and fires the same
      callbacks on every channel. */
  lemma {:induction false} ChunkIndependence(s: Schema, size: u32, a: seq<seq<u8>>, b: seq<seq<u8>>)
    requires a != [] && b != [] && Join(a) == Join(b)
    ensures Eqv(s, Feed(s, size, Init(s), a), Feed(s, size, Init(s), b))
  {
    InitShaped(s);
    FeedIsGo(s, size, Init(s), a);
    FeedIsGo(s, size, Init(s), b);
  }

  /** The serialization of a value, cut anyhow, is reported whole and completes the reader at its
      last byte; no proper prefix does. */
  lemma {:induction false} FeedTrip(s: Schema, size: u32, v: Val, chunks: seq<seq<u8>>)
    requires Regular(s) && Typed(s, v) && GoodSize(s, size, v) && chunks != [] && Join(chunks) == Encode(s, v)
    ensures Eqv(s, Feed(s, size, Init(s), chunks), Res(COMPLETE, Buf([]), Replay(s, v), |Encode(s, v)|))
    ensures forall n | 0 < n <= |chunks| && |Join(chunks[..n])| < |Encode(s, v)| ::
      Feed(s, size, Init(s), chunks[..n]).rv == INCOMPLETE
  {
    InitShaped(s);
    FeedIsGo(s, size, Init(s), chunks);
    Trips(s, size, v, []);
    assert Encode(s, v) + [] == Encode(s, v);
    forall n | 0 < n <= |chunks| && |Join(chunks[..n])| < |Encode(s, v)|
      ensures Feed(s, size, Init(s), chunks[..n]).rv == INCOMPLETE
    {
      JoinSplit(chunks, n);
      FeedIsGo(s, size, Init(s), chunks[..n]);
      assert Encode(s, v)[..|Join(chunks[..n])|] == Join(chunks[..n]);
      NeverEarly(s, size, v, |Join(chunks[..n])|);
    }
  }

  /** A vector item is never complete without a byte, so a vector loop either consumes or
      returns, however many items its header announces. */
  lemma {:induction false} ItemTakesBytes(s: Schema, size: u32, bs: seq<u8>)
    requires Regular(s) && !s.Option?
    ensures Go(s, size, Init(s), bs).rv == COMPLETE ==> Go(s, size, Init(s), bs).used > 0
  {
    FreshWaits(s, size);
  }

  lemma {:induction false} FreshWaits(s: Schema, size: u32)
    requires Regular(s) && !s.Option?
    ensures Poke(s, size, Init(s)).rv != COMPLETE
    decreases s
  {
    if s.Struct? {
      var st := Kids([], |s.fields|, 0, Init(s.fields[0]));
      assert IsFixed(s.fields[0]);
      FreshWaits(s.fields[0], Low32(FixedSize(s.fields[0])));
      var o := Poke(s.fields[0], Low32(FixedSize(s.fields[0])), Init(s.fields[0]));
      assert PokeIn(s, size, st) == After(s, size, [], |s.fields|, 0, o);
    }
  }

  /** The driver: one call of the reader per chunk. */
  method ParseAll(s: Schema, size: u32, chunks: seq<seq<u8>>) returns (rv: Rv, st: St, used: nat, log: Trace)
    requires Wf(s)
    ensures Agrees(s, Feed(s, size, Init(s), chunks), rv, st, log.events, used)
  {
    hide Go, Sound;
    InitSound(s);
    log := new Trace();
    rv, st, used := INCOMPLETE, Init(s), 0;
    var i := 0;
    ghost var all := Feed(s, size, Init(s), chunks);
    assert Then([], 0, all) == all && chunks[0..] == chunks;
    while i < |chunks| && rv == INCOMPLETE
      invariant i <= |chunks|
      invariant rv == INCOMPLETE ==> Sound(s, st)
      invariant rv == INCOMPLETE ==> Eqv(s, all, Then(log.events, used, Feed(s, size, st, chunks[i..])))
      invariant rv != INCOMPLETE ==> Agrees(s, all, rv, st, log.events, used)
    {
      var chunk := new Cursor(chunks[i]);
      ghost var before, was, st0 := log.events, used, st;
      ghost var ev;
      rv, st, ev := Parse(s, size, st, chunk, log);
      used := used + chunk.consumed;
      ghost var r := Go(s, size, st0, chunks[i]);
      Advance(s, size, all, before, was, st0, chunks[i..], rv, st, ev, chunk.consumed);
      assert chunks[i..][1..] == chunks[i + 1..];
      i := i + 1;
    }
    if rv == INCOMPLETE {
      assert log.events + [] == log.events;
    }
  }

  lemma {:induction false} Advance(s: Schema, size: u32, all: Res, before: seq<Event>, was: nat, st: St, chunks: seq<seq<u8>>,
                                   rv: Rv, st': St, ev: seq<Event>, used: nat)
    requires chunks != [] && Eqv(s, all, Then(before, was, Feed(s, size, st, chunks)))
    requires Agrees(s, Go(s, size, st, chunks[0]), rv, st', ev, used)
    ensures rv == INCOMPLETE ==> Eqv(s, all, Then(before + ev, was + used, Feed(s, size, st', chunks[1..])))
    ensures rv != INCOMPLETE ==> Agrees(s, all, rv, st', before + ev, was + used)
  {
    var r := Go(s, size, st, chunks[0]);
    if rv == INCOMPLETE {
      var f := Feed(s, size, st', chunks[1..]);
      EqvThen(s, r.ev, ev, used, f, f);
      EqvThen(s, before, before, was, Then(r.ev, used, f), Then(ev, used, f));
      ThenThen(before, was, ev, used, f);
    } else {
      EqvThen(s, before, before, was, r, Res(rv, st', ev, used));
    }
  }
}
