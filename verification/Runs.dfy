/** How a run of a reader is made of runs of its header words and of its children. */
module Runs {
  import opened Words
  import opened Schema
  import opened Automaton
  import opened Views
  import opened Lifting

  /** Of `s.tag`'s own bytes, those seen so far are passed on as one piece. */
  function Owing(s: Schema, ev: seq<Event>, bs: seq<u8>, r: Res): Res {
    Then(ev + [Chunk(s.tag, bs)], |bs|, r)
  }

  /** Owed pieces accumulate. */
  lemma {:induction false} OweMore(s: Schema, ev: seq<Event>, a: seq<u8>, ev': seq<Event>, b: seq<u8>, r: Res)
    requires Inner(s, ev')
    ensures Eqv(s, Owing(s, ev, a, Owing(s, ev', b, r)), Owing(s, ev + ev', a + b, r))
  {
    Slide(s, ev', a, b);
    SamePlus(s, ev, ev, [Chunk(s.tag, a)] + ev' + [Chunk(s.tag, b)], ev' + [Chunk(s.tag, a + b)]);
    assert ev + ([Chunk(s.tag, a)] + ev' + [Chunk(s.tag, b)]) == ev + [Chunk(s.tag, a)] + (ev' + [Chunk(s.tag, b)]);
    assert ev + (ev' + [Chunk(s.tag, a + b)]) == ev + ev' + [Chunk(s.tag, a + b)];
    var one, two := ev + [Chunk(s.tag, a)] + (ev' + [Chunk(s.tag, b)]), ev + ev' + [Chunk(s.tag, a + b)];
    EqvThen(s, one, two, |a| + |b|, r, r);
    ThenThen(ev + [Chunk(s.tag, a)], |a|, ev' + [Chunk(s.tag, b)], |b|, r);
  }

  lemma {:induction false} EqvOwing(s: Schema, ev: seq<Event>, bs: seq<u8>, r: Res, q: Res)
    requires Eqv(s, r, q)
    ensures Eqv(s, Owing(s, ev, bs, r), Owing(s, ev, bs, q))
  {
    EqvThen(s, ev + [Chunk(s.tag, bs)], ev + [Chunk(s.tag, bs)], |bs|, r, q);
  }

  lemma {:induction false} OweNothing(s: Schema, r: Res)
    ensures Eqv(s, r, Owing(s, [], [], r))
  {
    NoPiece(s, s.tag);
    EqvThen(s, [], [Chunk(s.tag, [])], 0, r, r);
    assert [] + [Chunk(s.tag, [])] == [Chunk(s.tag, [])];
    assert Then([], 0, r) == r;
  }

  // ---------- A step that ends a stage of the reader ----------

  lemma {:induction false} StagedEv(s: Schema, ev: seq<Event>, b: u8, mid: seq<Event>, tail: seq<Event>)
    requires Inner(s, mid)
    ensures Same(s, ev + mid + [Chunk(s.tag, [b])] + tail,
                 ev + [Chunk(s.tag, [b])] + (mid + [Chunk(s.tag, [])] + tail))
  {
    var c, e := [Chunk(s.tag, [b])], [Chunk(s.tag, [])];
    Slide(s, mid, [b], []);
    assert [b] + [] == [b];
    SamePlus(s, ev, ev, c + mid + e, mid + c);
    SamePlus(s, ev + (c + mid + e), ev + (mid + c), tail, tail);
    assert ev + (mid + c) + tail == ev + mid + c + tail;
    assert ev + (c + mid + e) + tail == ev + c + (mid + e + tail);
  }

  /** After the byte `b`, the reader's own stage is over and it goes on from `next`. */
  lemma {:induction false} Staged(s: Schema, size: u32, ev: seq<Event>, b: u8, next: St, rest: seq<u8>)
    requires !s.IsLeaf() && Shaped(s, next)
    ensures var q := PokeIn(s, size, next);
            var o := Wrap(s, Out(q.rv, q.st, ev + q.ev), [b]);
            Eqv(s, FoldAfter(s, size, o, rest), Owing(s, ev, [b], Go(s, size, next, rest)))
  {
    var q := PokeIn(s, size, next);
    var o := Wrap(s, Out(q.rv, q.st, ev + q.ev), [b]);
    var p := Poke(s, size, next);
    PokeInFrom(s, size, next);
    var pre := ev + [Chunk(s.tag, [b])];
    assert Same(s, o.ev, pre + p.ev) by {
      StagedEv(s, ev, b, q.ev, if q.rv == COMPLETE then [End(s.tag)] else []);
    }
    if q.rv == INCOMPLETE {
      var f := Fold(s, size, q.st, rest);
      EqvThen(s, o.ev, pre + p.ev, 1, f, f);
      ThenThen(pre, 1, p.ev, 0, f);
    }
  }

  // ---------- Children ----------

  /** What the parent does once child `k` is complete after the bytes `bs`. */
  function Onward(s: Schema, size: u32, nums: seq<u32>, count: nat, k: nat, r: Res, bs: seq<u8>): Res
    requires r.used <= |bs|
  {
    Owing(s, r.ev + BetweenEv(s, k), bs[..r.used],
          Go(s, size, Kids(nums, count, k + 1, FirstKid(s, nums, count, k + 1)), bs[r.used..]))
  }

  /** The parent's result, told from the child's. */
  ghost predicate Lifted(s: Schema, size: u32, nums: seq<u32>, count: nat, k: nat, r: Res, bs: seq<u8>, R: Res)
    requires r.used <= |bs|
  {
    match r.rv
    case INCOMPLETE => Eqv(s, R, Res(INCOMPLETE, Kids(nums, count, k, r.st), r.ev + [Chunk(s.tag, bs)], |bs|))
    case REJECT => R.rv == REJECT && R.used == r.used
    case COMPLETE => Eqv(s, R, Onward(s, size, nums, count, k, r, bs))
  }

  lemma {:induction false} NextShaped(s: Schema, nums: seq<u32>, count: nat, k: nat)
    requires Fits(s, nums, count)
    ensures Shaped(s, Kids(nums, count, k, FirstKid(s, nums, count, k)))
  {
  }

  lemma {:induction false} KidsStep(s: Schema, size: u32, nums: seq<u32>, count: nat, k: nat, child: St, b: u8)
    requires Fits(s, nums, count) && k < count
    ensures var o := Step(ChildOf(s, nums, count, k), ChildSize(s, size, nums, count, k), child, b);
            Step(s, size, Kids(nums, count, k, child), b) == KidsOut(s, size, nums, count, k, o, [b])
  {
  }

  lemma {:induction false} KidsPoke(s: Schema, size: u32, nums: seq<u32>, count: nat, k: nat, child: St)
    requires Fits(s, nums, count) && k < count
    ensures var o := Poke(ChildOf(s, nums, count, k), ChildSize(s, size, nums, count, k), child);
            Poke(s, size, Kids(nums, count, k, child)) == KidsOut(s, size, nums, count, k, o, [])
  {
    var o := Poke(ChildOf(s, nums, count, k), ChildSize(s, size, nums, count, k), child);
    assert PokeIn(s, size, Kids(nums, count, k, child)) == After(s, size, nums, count, k, o);
  }

  /** The parent's outcome, from the child's outcome `o` on the bytes `bs`. */
  function KidsOut(s: Schema, size: u32, nums: seq<u32>, count: nat, k: nat, o: Out, bs: seq<u8>): Out
    requires Fits(s, nums, count) && k < count
  {
    if o.rv != COMPLETE then Wrap(s, Out(o.rv, Kids(nums, count, k, o.st), o.ev), bs)
    else
      var q := PokeIn(s, size, Kids(nums, count, k + 1, FirstKid(s, nums, count, k + 1)));
      Wrap(s, Out(q.rv, q.st, o.ev + BetweenEv(s, k) + q.ev), bs)
  }

  lemma {:induction false} LiftFold(s: Schema, size: u32, nums: seq<u32>, count: nat, k: nat, child: St, bs: seq<u8>)
    requires Fits(s, nums, count) && k < count
    ensures var r := Fold(ChildOf(s, nums, count, k), ChildSize(s, size, nums, count, k), child, bs);
            Lifted(s, size, nums, count, k, r, bs, Fold(s, size, Kids(nums, count, k, child), bs))
    decreases |bs|
  {
    var c, csize := ChildOf(s, nums, count, k), ChildSize(s, size, nums, count, k);
    if bs == [] {
      NoPiece(s, s.tag);
      assert [] + [Chunk(s.tag, [])] == [Chunk(s.tag, [])];
    } else {
      var b, rest := bs[0], bs[1..];
      var o := Step(c, csize, child, b);
      FoldCons(c, csize, child, bs);
      FoldCons(s, size, Kids(nums, count, k, child), bs);
      KidsStep(s, size, nums, count, k, child, b);
      assert [b] + rest == bs;
      if o.rv == INCOMPLETE {
        LiftFold(s, size, nums, count, k, o.st, rest);
      }
      LiftStep(s, size, nums, count, k, o, b, rest);
    }
  }

  /** One step of the child, and the rest of its run. */
  lemma {:induction false} LiftStep(s: Schema, size: u32, nums: seq<u32>, count: nat, k: nat, o: Out, b: u8, rest: seq<u8>)
    requires Fits(s, nums, count) && k < count
    requires o.rv == INCOMPLETE ==>
      Lifted(s, size, nums, count, k, Fold(ChildOf(s, nums, count, k), ChildSize(s, size, nums, count, k), o.st, rest), rest,
             Fold(s, size, Kids(nums, count, k, o.st), rest))
    ensures Lifted(s, size, nums, count, k,
                   FoldAfter(ChildOf(s, nums, count, k), ChildSize(s, size, nums, count, k), o, rest), [b] + rest,
                   FoldAfter(s, size, KidsOut(s, size, nums, count, k, o, [b]), rest))
  {
    var c, csize := ChildOf(s, nums, count, k), ChildSize(s, size, nums, count, k);
    if o.rv == INCOMPLETE {
      var r, R := Fold(c, csize, o.st, rest), Fold(s, size, Kids(nums, count, k, o.st), rest);
      KidIsChild(s, nums, count, k);
      FoldFrom(c, csize, o.st, rest);
      FromUp(s, c, r.ev);
      LiftOn(s, size, nums, count, k, o.ev, [b], r, rest, R);
      assert FoldAfter(c, csize, o, rest) == Then(o.ev, |[b]|, r);
      var O := KidsOut(s, size, nums, count, k, o, [b]);
      assert O.ev == o.ev + [Chunk(s.tag, [b])];
      assert FoldAfter(s, size, O, rest) == Owing(s, o.ev, [b], R);
    } else if o.rv == COMPLETE {
      NextShaped(s, nums, count, k + 1);
      Staged(s, size, o.ev + BetweenEv(s, k), b, Kids(nums, count, k + 1, FirstKid(s, nums, count, k + 1)), rest);
      assert ([b] + rest)[..1] == [b] && ([b] + rest)[1..] == rest;
    }
  }

  /** The lifted result, put behind the callbacks `ev` and the bytes `pre`. */
  lemma {:induction false} LiftOn(s: Schema, size: u32, nums: seq<u32>, count: nat, k: nat, ev: seq<Event>, pre: seq<u8>,
               r: Res, rest: seq<u8>, R: Res)
    requires r.used <= |rest| && (r.rv == INCOMPLETE ==> r.used == |rest|)
    requires Inner(s, r.ev)
    requires Lifted(s, size, nums, count, k, r, rest, R)
    ensures Lifted(s, size, nums, count, k, Then(ev, |pre|, r), pre + rest, Owing(s, ev, pre, R))
  {
    if r.rv == INCOMPLETE {
      LiftRest(s, Kids(nums, count, k, r.st), ev, pre, r.ev, rest, R);
    } else if r.rv == COMPLETE {
      var go := Go(s, size, Kids(nums, count, k + 1, FirstKid(s, nums, count, k + 1)), rest[r.used..]);
      LiftDone(s, ev, pre, r.ev, BetweenEv(s, k), rest[..r.used], R, go) by { BetweenInner(s, k); }
      assert (pre + rest)[..|pre| + r.used] == pre + rest[..r.used];
      assert (pre + rest)[|pre| + r.used..] == rest[r.used..];
    }
  }

  lemma {:induction false} LiftDone(s: Schema, ev: seq<Event>, pre: seq<u8>, ev': seq<Event>, between: seq<Event>, took: seq<u8>, R: Res, go: Res)
    requires Inner(s, ev') && Inner(s, between)
    requires Eqv(s, R, Owing(s, ev' + between, took, go))
    ensures Eqv(s, Owing(s, ev, pre, R), Owing(s, ev + ev' + between, pre + took, go))
  {
    InnerPlus(s, ev', between);
    EqvOwing(s, ev, pre, R, Owing(s, ev' + between, took, go));
    OweMore(s, ev, pre, ev' + between, took, go);
    assert ev + (ev' + between) == ev + ev' + between;
  }

  lemma {:induction false} LiftRest(s: Schema, st: St, ev: seq<Event>, pre: seq<u8>, ev': seq<Event>, rest: seq<u8>, R: Res)
    requires Inner(s, ev')
    requires Eqv(s, R, Res(INCOMPLETE, st, ev' + [Chunk(s.tag, rest)], |rest|))
    ensures Eqv(s, Owing(s, ev, pre, R), Res(INCOMPLETE, st, ev + ev' + [Chunk(s.tag, pre + rest)], |pre| + |rest|))
  {
    var end := Res(INCOMPLETE, st, [], 0);
    assert ev' + [Chunk(s.tag, rest)] + [] == ev' + [Chunk(s.tag, rest)];
    EqvOwing(s, ev, pre, R, Owing(s, ev', rest, end));
    OweMore(s, ev, pre, ev', rest, end);
    assert ev + ev' + [Chunk(s.tag, pre + rest)] + [] == ev + ev' + [Chunk(s.tag, pre + rest)];
  }

  /** A call of the parent while child `k` is at work. */
  lemma {:induction false} LiftGo(s: Schema, size: u32, nums: seq<u32>, count: nat, k: nat, child: St, bs: seq<u8>)
    requires Fits(s, nums, count) && k < count
    ensures var r := Go(ChildOf(s, nums, count, k), ChildSize(s, size, nums, count, k), child, bs);
            Lifted(s, size, nums, count, k, r, bs, Go(s, size, Kids(nums, count, k, child), bs))
  {
    var c, csize := ChildOf(s, nums, count, k), ChildSize(s, size, nums, count, k);
    var p := Poke(c, csize, child);
    KidsPoke(s, size, nums, count, k, child);
    if p.rv == INCOMPLETE {
      LiftFold(s, size, nums, count, k, p.st, bs);
      var r, R := Fold(c, csize, p.st, bs), Fold(s, size, Kids(nums, count, k, p.st), bs);
      KidIsChild(s, nums, count, k);
      FoldFrom(c, csize, p.st, bs);
      FromUp(s, c, r.ev);
      LiftOn(s, size, nums, count, k, p.ev, [], r, bs, R);
      assert Go(c, csize, child, bs) == Then(p.ev, 0, r);
      assert Poke(s, size, Kids(nums, count, k, child)).ev == p.ev + [Chunk(s.tag, [])];
      assert Go(s, size, Kids(nums, count, k, child), bs) == Owing(s, p.ev, [], R);
      assert [] + bs == bs;
    } else if p.rv == COMPLETE {
      LiftFree(s, size, nums, count, k, p, bs);
    }
  }

  /** The child is complete without a byte. */
  lemma {:induction false} LiftFree(s: Schema, size: u32, nums: seq<u32>, count: nat, k: nat, p: Out, bs: seq<u8>)
    requires Fits(s, nums, count) && k < count && p.rv == COMPLETE
    ensures var P := KidsOut(s, size, nums, count, k, p, []);
            var R := if P.rv != INCOMPLETE then Res(P.rv, P.st, P.ev, 0)
                     else Then(P.ev, 0, Fold(s, size, P.st, bs));
            Eqv(s, R, Onward(s, size, nums, count, k, Res(p.rv, p.st, p.ev, 0), bs))
  {
    var next := Kids(nums, count, k + 1, FirstKid(s, nums, count, k + 1));
    var P, P' := KidsOut(s, size, nums, count, k, p, []), Poke(s, size, next);
    var go := Go(s, size, next, bs);
    var ev := p.ev + BetweenEv(s, k);
    var q := PokeIn(s, size, next);
    var tail := if q.rv == COMPLETE then [End(s.tag)] else [];
    assert P.ev == ev + P'.ev by {
      assert ev + q.ev + [Chunk(s.tag, [])] + tail == ev + (q.ev + [Chunk(s.tag, [])] + tail);
    }
    if q.rv == INCOMPLETE { ThenThen(ev, 0, P'.ev, 0, Fold(s, size, q.st, bs)); }
    NoPiece(s, s.tag);
    SamePlus(s, ev, ev, [], [Chunk(s.tag, [])]);
    assert ev + [] == ev;
    EqvThen(s, ev, ev + [Chunk(s.tag, [])], 0, go, go);
    assert bs[..0] == [] && bs[0..] == bs;
  }

  // ---------- Header words ----------

  lemma {:induction false} PartFold(s: Schema, size: u32, nums: seq<u32>, seen: nat, part: seq<u8>, bs: seq<u8>)
    requires !s.IsLeaf() && |part| + |bs| < 4
    ensures Eqv(s, Fold(s, size, Hdr(nums, seen, part), bs),
                Res(INCOMPLETE, Hdr(nums, seen, part + bs), [Chunk(s.tag, bs)], |bs|))
    decreases |bs|
  {
    if bs == [] {
      NoPiece(s, s.tag);
      assert part + [] == part;
    } else {
      var b, rest := bs[0], bs[1..];
      var next := Hdr(nums, seen, part + [b]);
      FoldCons(s, size, Hdr(nums, seen, part), bs);
      PartFold(s, size, nums, seen, part + [b], rest);
      assert part + [b] + rest == part + bs;
      var end := Res(INCOMPLETE, Hdr(nums, seen, part + bs), [], 0);
      assert [] + [Chunk(s.tag, [b])] == [Chunk(s.tag, [b])] && [] + [Chunk(s.tag, rest)] == [Chunk(s.tag, rest)];
      assert [Chunk(s.tag, rest)] + [] == [Chunk(s.tag, rest)];
      EqvOwing(s, [], [b], Fold(s, size, next, rest), Owing(s, [], rest, end));
      OweMore(s, [], [b], [], rest, end);
      assert [b] + rest == bs && [Chunk(s.tag, bs)] + [] == [Chunk(s.tag, bs)];
    }
  }

  lemma {:induction false} HdrStep(s: Schema, size: u32, nums: seq<u32>, seen: nat, part: seq<u8>, b: u8)
    requires !s.IsLeaf()
    ensures Step(s, size, Hdr(nums, seen, part), b)
         == if |part| != 3 then Out(INCOMPLETE, Hdr(nums, seen, part + [b]), [] + [Chunk(s.tag, [b])])
            else
              var q := PokeIn(s, size, Hdr(Retain(s, nums, Unpack(part + [b])), seen + 1, []));
              Wrap(s, Out(q.rv, q.st, [] + q.ev), [b])
  {
    if |part| == 3 {
      var q := PokeIn(s, size, Hdr(Retain(s, nums, Unpack(part + [b])), seen + 1, []));
      assert [] + q.ev == q.ev;
    }
  }

  /** The rest of a header word, and what follows it. */
  lemma {:induction false} WordFold(s: Schema, size: u32, nums: seq<u32>, seen: nat, part: seq<u8>, bs: seq<u8>, rest: seq<u8>)
    requires !s.IsLeaf() && |part| < 4 && |part| + |bs| == 4
    ensures Eqv(s, Fold(s, size, Hdr(nums, seen, part), bs + rest),
                Owing(s, [], bs, Go(s, size, Hdr(Retain(s, nums, Unpack(part + bs)), seen + 1, []), rest)))
    decreases |bs|
  {
    var b, bs' := bs[0], bs[1..];
    var st := Hdr(nums, seen, part);
    var next := Hdr(Retain(s, nums, Unpack(part + bs)), seen + 1, []);
    FoldCons(s, size, st, bs + rest);
    assert (bs + rest)[0] == b && (bs + rest)[1..] == bs' + rest;
    if |part| == 3 {
      assert bs == [b] && bs' + rest == rest;
      HdrStep(s, size, nums, seen, part, b);
      Staged(s, size, [], b, next, rest);
    } else {
      var go := Go(s, size, next, rest);
      HdrStep(s, size, nums, seen, part, b);
      WordFold(s, size, nums, seen, part + [b], bs', rest);
      assert part + [b] + bs' == part + bs;
      EqvOwing(s, [], [b], Fold(s, size, Hdr(nums, seen, part + [b]), bs' + rest), Owing(s, [], bs', go));
      OweMore(s, [], [b], [], bs', go);
      assert [b] + bs' == bs;
      assert [] + [Chunk(s.tag, [b])] == [Chunk(s.tag, [b])];
    }
  }

  /** A call of the reader while it is reading a header word. */
  lemma {:induction false} HdrGo(s: Schema, size: u32, nums: seq<u32>, seen: nat, part: seq<u8>, bs: seq<u8>)
    requires !s.IsLeaf() && |part| < 4 && HeadOf(s, size, nums, seen) == More
    ensures |part| + |bs| < 4 ==>
      Eqv(s, Go(s, size, Hdr(nums, seen, part), bs), Res(INCOMPLETE, Hdr(nums, seen, part + bs), [Chunk(s.tag, bs)], |bs|))
    ensures |part| + |bs| >= 4 ==>
      var n := 4 - |part|;
      Eqv(s, Go(s, size, Hdr(nums, seen, part), bs),
          Owing(s, [], bs[..n], Go(s, size, Hdr(Retain(s, nums, Unpack(part + bs[..n])), seen + 1, []), bs[n..])))
  {
    var st := Hdr(nums, seen, part);
    GoOnStill(s, size, st, bs);
    if |part| + |bs| < 4 {
      PartFold(s, size, nums, seen, part, bs);
    } else {
      var n := 4 - |part|;
      assert bs == bs[..n] + bs[n..];
      WordFold(s, size, nums, seen, part, bs[..n], bs[n..]);
    }
  }

  /** A complete header that announces children: the reader enters them. */
  lemma {:induction false} EnterGo(s: Schema, size: u32, nums: seq<u32>, seen: nat, part: seq<u8>, bs: seq<u8>)
    requires !s.IsLeaf() && |part| < 4 && HeadOf(s, size, nums, seen).Ready?
    ensures var count := HeadOf(s, size, nums, seen).count;
            var next := if s.Bytes? then Raw(nums[0], 0) else Kids(nums, count, 0, FirstKid(s, nums, count, 0));
            Go(s, size, Hdr(nums, seen, part), bs) == Then(EnterEv(s, nums, count), 0, Go(s, size, next, bs))
  {
    var st := Hdr(nums, seen, part);
    var count := HeadOf(s, size, nums, seen).count;
    var next := if s.Bytes? then Raw(nums[0], 0) else Kids(nums, count, 0, FirstKid(s, nums, count, 0));
    var ev := EnterEv(s, nums, count);
    var q, p, p' := PokeIn(s, size, next), Poke(s, size, st), Poke(s, size, next);
    assert PokeIn(s, size, st) == q.(ev := ev + q.ev);
    assert p.ev == ev + p'.ev by {
      assert ev + q.ev + [Chunk(s.tag, [])] + (if q.rv == COMPLETE then [End(s.tag)] else [])
          == ev + (q.ev + [Chunk(s.tag, [])] + (if q.rv == COMPLETE then [End(s.tag)] else []));
    }
    if q.rv == INCOMPLETE { ThenThen(ev, 0, p'.ev, 0, Fold(s, size, q.st, bs)); }
  }

  // ---------- Leaves and byte strings ----------

  /** A call of a leaf reader: it fills its buffer. */
  lemma {:induction false} BufFold(s: Schema, size: u32, buf: seq<u8>, bs: seq<u8>)
    requires s.IsLeaf() && |buf| < FixedSize(s)
    ensures var n := FixedSize(s) - |buf|;
            Fold(s, size, Buf(buf), bs)
            == if |bs| < n then Res(INCOMPLETE, Buf(buf + bs), [], |bs|)
               else Res(COMPLETE, Buf(buf + bs[..n]), [Leaf(s.tag, buf + bs[..n])], n)
    decreases |bs|
  {
    if bs == [] {
      assert buf + [] == buf;
    } else {
      var b, rest := bs[0], bs[1..];
      FoldCons(s, size, Buf(buf), bs);
      if |buf| + 1 < FixedSize(s) {
        var n := FixedSize(s) - |buf|;
        BufFold(s, size, buf + [b], rest);
        assert buf + [b] + rest == buf + bs;
        if |bs| >= n { assert buf + [b] + rest[..n - 1] == buf + bs[..n]; }
      } else {
        assert bs[..1] == [b];
      }
    }
  }

  /** What a byte-string reader does with the next bytes of its body. */
  function RawRes(t: Tag, len: u32, got: nat, bs: seq<u8>): Res
    requires got < len
  {
    var n := len - got;
    if |bs| < n then Res(INCOMPLETE, Raw(len, got + |bs|), [Body(t, bs)], |bs|)
    else Res(COMPLETE, Raw(len, len), [Body(t, bs[..n])] + [End(t)], n)
  }

  lemma {:induction false} RawStep(s: Schema, size: u32, len: u32, got: nat, b: u8)
    requires s.Bytes? && got < len
    ensures var o := Step(s, size, Raw(len, got), b);
            && o.rv == (if got + 1 < len then INCOMPLETE else COMPLETE)
            && o.st == Raw(len, got + 1)
            && Same(s, o.ev, [Body(s.tag, [b])] + (if got + 1 < len then [] else [End(s.tag)]))
  {
    var t := s.tag;
    var tail := if got + 1 < len then [] else [End(t)];
    assert Step(s, size, Raw(len, got), b).ev == [Body(t, [b])] + [Chunk(t, [b])] + tail;
    forall K | Anti(K, s)
      ensures View(K, [Body(t, [b])] + [Chunk(t, [b])] + tail) == View(K, [Body(t, [b])] + tail)
    {
      DropPiece(K, s, [Body(t, [b])], [b], tail);
    }
  }

  /** A call of a byte-string reader inside its body: it passes the bytes through. */
  lemma {:induction false} RawFold(s: Schema, size: u32, len: u32, got: nat, bs: seq<u8>)
    requires s.Bytes? && got < len
    ensures Eqv(s, Fold(s, size, Raw(len, got), bs), RawRes(s.tag, len, got, bs))
    decreases |bs|
  {
    var t := s.tag;
    if bs == [] {
      forall K | Anti(K, s) ensures View(K, []) == View(K, [Body(t, [])]) { OneView(K, Body(t, [])); }
    } else {
      var b, rest := bs[0], bs[1..];
      FoldCons(s, size, Raw(len, got), bs);
      RawStep(s, size, len, got, b);
      if got + 1 < len {
        RawFold(s, size, len, got + 1, rest);
        RawMore(s, size, len, got, b, rest);
        assert [b] + rest == bs;
      } else {
        assert bs[..1] == [b];
      }
    }
  }

  lemma {:induction false} RawMore(s: Schema, size: u32, len: u32, got: nat, b: u8, rest: seq<u8>)
    requires s.Bytes? && got + 1 < len
    requires Eqv(s, Fold(s, size, Raw(len, got + 1), rest), RawRes(s.tag, len, got + 1, rest))
    requires var o := Step(s, size, Raw(len, got), b); Same(s, o.ev, [Body(s.tag, [b])] + [])
    ensures var o := Step(s, size, Raw(len, got), b);
            Eqv(s, Then(o.ev, 1, Fold(s, size, Raw(len, got + 1), rest)), RawRes(s.tag, len, got, [b] + rest))
  {
    var t := s.tag;
    var o := Step(s, size, Raw(len, got), b);
    var q := RawRes(t, len, got + 1, rest);
    EqvThen(s, o.ev, [Body(t, [b])] + [], 1, Fold(s, size, Raw(len, got + 1), rest), q);
    var n := len - got;
    var took := if |rest| < n - 1 then rest else rest[..n - 1];
    var z := if |rest| < n - 1 then [] else [End(t)];
    assert q.ev == [Body(t, took)] + z;
    assert [b] + took == if |[b] + rest| < n then [b] + rest else ([b] + rest)[..n];
    BodyJoin(s, b, took, z);
    assert [Body(t, [b])] + [] + ([Body(t, took)] + z) == [Body(t, [b])] + [Body(t, took)] + z;
    assert RawRes(t, len, got, [b] + rest).ev == [Body(t, [b] + took)] + z;
  }

  lemma {:induction false} DropPiece(K: Channel, s: Schema, a: seq<Event>, bs: seq<u8>, z: seq<Event>)
    requires s.Bytes? && Anti(K, s)
    ensures View(K, a + [Chunk(s.tag, bs)] + z) == View(K, a + z)
  {
    ViewPlus(K, a + [Chunk(s.tag, bs)], z);
    ViewPlus(K, a, [Chunk(s.tag, bs)]);
    ViewPlus(K, a, z);
    OneView(K, Chunk(s.tag, bs));
  }

  lemma {:induction false} BodyJoin(s: Schema, b: u8, bs: seq<u8>, z: seq<Event>)
    requires s.Bytes?
    ensures Same(s, [Body(s.tag, [b])] + [Body(s.tag, bs)] + z, [Body(s.tag, [b] + bs)] + z)
  {
    var t := s.tag;
    forall K | Anti(K, s)
      ensures View(K, [Body(t, [b])] + [Body(t, bs)] + z) == View(K, [Body(t, [b] + bs)] + z)
    {
      ViewPlus(K, [Body(t, [b])] + [Body(t, bs)], z);
      ViewPlus(K, [Body(t, [b])], [Body(t, bs)]);
      ViewPlus(K, [Body(t, [b] + bs)], z);
      OneView(K, Body(t, [b]));
      OneView(K, Body(t, bs));
      OneView(K, Body(t, [b] + bs));
      assert BodyBytes(t, [b]) + BodyBytes(t, bs) == BodyBytes(t, [b] + bs);
    }
  }

  // ---------- Steps of the proof: from what is left to do to what the whole call does ----------

  lemma {:induction false} ToNext(s: Schema, g: Res, ev: seq<Event>, pre: seq<u8>, cur: Res, ev': seq<Event>, bs: seq<u8>, next: Res)
    requires Eqv(s, g, Owing(s, ev, pre, cur)) && Eqv(s, cur, Owing(s, ev', bs, next)) && Inner(s, ev')
    ensures Eqv(s, g, Owing(s, ev + ev', pre + bs, next))
  {
    EqvOwing(s, ev, pre, cur, Owing(s, ev', bs, next));
    OweMore(s, ev, pre, ev', bs, next);
  }

  lemma {:induction false} ToRest(s: Schema, g: Res, ev: seq<Event>, pre: seq<u8>, cur: Res, st: St, ev': seq<Event>, rest: seq<u8>)
    requires Eqv(s, g, Owing(s, ev, pre, cur)) && Inner(s, ev')
    requires Eqv(s, cur, Res(INCOMPLETE, st, ev' + [Chunk(s.tag, rest)], |rest|))
    ensures Eqv(s, g, Res(INCOMPLETE, st, ev + ev' + [Chunk(s.tag, pre + rest)], |pre| + |rest|))
  {
    LiftRest(s, st, ev, pre, ev', rest, cur);
  }

  lemma {:induction false} ToEnd(s: Schema, g: Res, ev: seq<Event>, pre: seq<u8>, cur: Res)
    requires Eqv(s, g, Owing(s, ev, pre, cur))
    requires cur.rv == COMPLETE && cur.used == 0 && cur.ev == [Chunk(s.tag, []), End(s.tag)]
    ensures g.rv == COMPLETE && g.used == |pre|
    ensures Same(s, g.ev, ev + [Chunk(s.tag, pre), End(s.tag)])
  {
    var a, e := ev + [Chunk(s.tag, pre)], [End(s.tag)];
    NoPiece(s, s.tag);
    SamePlus(s, [Chunk(s.tag, [])], [], e, e);
    assert [Chunk(s.tag, [])] + e == cur.ev && [] + e == e;
    SamePlus(s, a, a, cur.ev, e);
    assert a + e == ev + [Chunk(s.tag, pre), End(s.tag)];
  }

  lemma {:induction false} ToEnter(s: Schema, g: Res, ev: seq<Event>, pre: seq<u8>, cur: Res, ev': seq<Event>, next: Res)
    requires Eqv(s, g, Owing(s, ev, pre, cur)) && cur == Then(ev', 0, next) && Inner(s, ev')
    ensures Eqv(s, g, Owing(s, ev + ev', pre, next))
  {
    NoPiece(s, s.tag);
    SamePlus(s, ev', ev', [], [Chunk(s.tag, [])]);
    assert ev' + [] == ev';
    EqvThen(s, ev', ev' + [Chunk(s.tag, [])], 0, next, next);
    ToNext(s, g, ev, pre, cur, ev', [], next);
    assert pre + [] == pre;
  }

  /** A child that is complete, seen from its parent. */
  lemma {:induction false} KidDone(s: Schema, size: u32, nums: seq<u32>, count: nat, k: nat, child: St, bs: seq<u8>, ev: seq<Event>, used: nat)
    requires Fits(s, nums, count) && k < count && used <= |bs|
    requires var r := Go(ChildOf(s, nums, count, k), ChildSize(s, size, nums, count, k), child, bs);
             r.rv == COMPLETE && r.used == used && Same(ChildOf(s, nums, count, k), r.ev, ev)
    ensures Inner(s, ev + BetweenEv(s, k))
    ensures Eqv(s, Go(s, size, Kids(nums, count, k, child), bs),
                Owing(s, ev + BetweenEv(s, k), bs[..used],
                      Go(s, size, Kids(nums, count, k + 1, FirstKid(s, nums, count, k + 1)), bs[used..])))
  {
    var c, csize := ChildOf(s, nums, count, k), ChildSize(s, size, nums, count, k);
    var r := Go(c, csize, child, bs);
    var go := Go(s, size, Kids(nums, count, k + 1, FirstKid(s, nums, count, k + 1)), bs[used..]);
    KidIsChild(s, nums, count, k);
    KidEv(s, c, r.ev, ev, k) by { GoFrom(c, csize, child, bs); }
    LiftGo(s, size, nums, count, k, child, bs);
    var piece := [Chunk(s.tag, bs[..used])];
    SamePlus(s, r.ev + BetweenEv(s, k), ev + BetweenEv(s, k), piece, piece);
    EqvThen(s, r.ev + BetweenEv(s, k) + piece, ev + BetweenEv(s, k) + piece, used, go, go);
  }

  lemma {:induction false} KidEv(s: Schema, c: Schema, a: seq<Event>, b: seq<Event>, k: nat)
    requires IsChild(c, s) && From(c, a) && Same(c, a, b)
    ensures Inner(s, b) && Inner(s, b + BetweenEv(s, k)) && Same(s, a, b)
    ensures Same(s, a + BetweenEv(s, k), b + BetweenEv(s, k))
  {
    FromSame(c, a, b);
    FromUp(s, c, b);
    BetweenInner(s, k);
    InnerPlus(s, b, BetweenEv(s, k));
    SameUp(s, c, a, b);
    SamePlus(s, a, b, BetweenEv(s, k), BetweenEv(s, k));
  }

  /** A child that asks for more, seen from its parent. */
  lemma {:induction false} KidWaits(s: Schema, size: u32, nums: seq<u32>, count: nat, k: nat, child: St, bs: seq<u8>, st: St, ev: seq<Event>)
    requires Fits(s, nums, count) && k < count
    requires Eqv(ChildOf(s, nums, count, k), Go(ChildOf(s, nums, count, k), ChildSize(s, size, nums, count, k), child, bs),
                 Res(INCOMPLETE, st, ev, |bs|))
    ensures Inner(s, ev)
    ensures Eqv(s, Go(s, size, Kids(nums, count, k, child), bs),
                Res(INCOMPLETE, Kids(nums, count, k, st), ev + [Chunk(s.tag, bs)], |bs|))
  {
    var c, csize := ChildOf(s, nums, count, k), ChildSize(s, size, nums, count, k);
    var r := Go(c, csize, child, bs);
    KidIsChild(s, nums, count, k);
    KidEv(s, c, r.ev, ev, k) by { GoFrom(c, csize, child, bs); }
    LiftGo(s, size, nums, count, k, child, bs);
    SamePlus(s, r.ev, ev, [Chunk(s.tag, bs)], [Chunk(s.tag, bs)]);
  }

  /** A complete header that ends the call. */
  lemma {:induction false} HeadGo(s: Schema, size: u32, st: St, bs: seq<u8>)
    requires !s.IsLeaf() && st.Hdr?
    ensures var r := Go(s, size, st, bs);
            match HeadOf(s, size, st.nums, st.seen)
            case Bad => r.rv == REJECT && r.used == 0
            case Empty => r.rv == COMPLETE && r.used == 0 && r.ev == [Chunk(s.tag, []), End(s.tag)]
            case _ => true
  {
    if HeadOf(s, size, st.nums, st.seen).Empty? {
      assert PokeIn(s, size, st) == Out(COMPLETE, st, []);
    } else if HeadOf(s, size, st.nums, st.seen).Bad? {
      assert PokeIn(s, size, st) == Out(REJECT, st, []);
    }
  }
}
