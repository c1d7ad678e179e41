/** Facts about the automaton: where it rests, how a run splits, and how a run of a child
    reader shows up as a run of its parent. */
module Lifting {
  import opened Words
  import opened Schema
  import opened Automaton
  import opened Views

  // ---------- Callbacks belong to the nodes that fire them ----------

  lemma {:induction false} KidIsChild(s: Schema, nums: seq<u32>, count: nat, k: nat)
    requires Fits(s, nums, count) && k < count
    ensures IsChild(ChildOf(s, nums, count, k), s)
  {
  }

  lemma {:induction false} FromOne(s: Schema, e: Event)
    requires e.tag == s.tag
    ensures From(s, [e])
  {
    forall K | Mute(K, s) ensures View(K, [e]) == [] { OneView(K, e); }
  }

  lemma {:induction false} InnerOne(s: Schema, e: Event)
    requires e.tag == s.tag && (e.Size? || e.Length? || e.Index? || e.Offsets?)
    ensures Inner(s, [e])
  {
    forall K | Anti(K, s) && s.tag in K.chunk ensures View(K, [e]) == [] { OneView(K, e); }
  }

  lemma {:induction false} FromNil(s: Schema)
    ensures From(s, [])
  {
  }

  lemma {:induction false} FromInit(s: Schema)
    ensures From(s, InitEv(s))
  {
    if s.IsLeaf() {
    } else {
      FromOne(s, Start(s.tag));
      if s.Struct? && s.fields != [] {
        FromInit(s.fields[0]);
        FromUp(s, s.fields[0], InitEv(s.fields[0]));
        FromPlus(s, [Start(s.tag)], InitEv(s.fields[0]));
      } else if s.Struct? {
        assert InitEv(s) == [Start(s.tag)];
      } else if s.Option? {
        FromInit(s.item);
        FromUp(s, s.item, InitEv(s.item));
        FromPlus(s, [Start(s.tag)], InitEv(s.item));
      }
    }
  }

  lemma {:induction false} FromInitUp(s: Schema, c: Schema)
    requires IsChild(c, s)
    ensures From(s, InitEv(c)) && Inner(s, InitEv(c))
  {
    FromInit(c);
    FromUp(s, c, InitEv(c));
  }

  lemma {:induction false} PlusInner(s: Schema, ev: seq<Event>, e: Event)
    requires From(s, ev) && Inner(s, ev)
    requires e.tag == s.tag && (e.Size? || e.Length? || e.Index? || e.Offsets?)
    ensures From(s, ev + [e]) && Inner(s, ev + [e])
  {
    FromOne(s, e);
    InnerOne(s, e);
    FromPlus(s, ev, [e]);
    InnerPlus(s, ev, [e]);
  }

  lemma {:induction false} BetweenInner(s: Schema, k: nat)
    ensures From(s, BetweenEv(s, k)) && Inner(s, BetweenEv(s, k))
  {
    if s.Struct? || s.Table? {
      if k + 1 < |s.fields| { FromInitUp(s, s.fields[k + 1]); }
    } else if s.FixVec? || s.DynVec? {
      FromInitUp(s, s.item);
      PlusInner(s, InitEv(s.item), Index(s.tag, k + 1));
    }
  }

  lemma {:induction false} EnterInner(s: Schema, nums: seq<u32>, count: nat)
    ensures From(s, EnterEv(s, nums, count)) && Inner(s, EnterEv(s, nums, count))
  {
    if s.Table? {
      var ev := if s.fields == [] then [] else InitEv(s.fields[0]);
      if s.fields != [] { FromInitUp(s, s.fields[0]); }
      PlusInner(s, ev, Offsets(s.tag, nums));
    } else if s.FixVec? {
      var e := Size(s.tag, Low32(Times(count, FixedSize(s.item)) + 4));
      FromOne(s, e);
      InnerOne(s, e);
      FromInitUp(s, s.item);
      FromPlus(s, [e], InitEv(s.item));
      InnerPlus(s, [e], InitEv(s.item));
      PlusInner(s, [e] + InitEv(s.item), Index(s.tag, 0));
    } else if s.DynVec? {
      FromInitUp(s, s.item);
      PlusInner(s, InitEv(s.item), Length(s.tag, Low32(count)));
      PlusInner(s, InitEv(s.item) + [Length(s.tag, Low32(count))], Index(s.tag, 0));
      assert EnterEv(s, nums, count)
          == InitEv(s.item) + [Length(s.tag, Low32(count))] + [Index(s.tag, 0)];
    } else if s.Bytes? {
      FromOne(s, Size(s.tag, Low32(count + 4)));
      InnerOne(s, Size(s.tag, Low32(count + 4)));
    }
  }

  lemma {:induction false} WrapFrom(s: Schema, o: Out, bs: seq<u8>)
    requires From(s, o.ev)
    ensures From(s, Wrap(s, o, bs).ev)
  {
    if !s.IsLeaf() {
      FromOne(s, Chunk(s.tag, bs));
      FromPlus(s, o.ev, [Chunk(s.tag, bs)]);
      FromOne(s, End(s.tag));
      FromPlus(s, o.ev + [Chunk(s.tag, bs)], if o.rv == COMPLETE then [End(s.tag)] else []);
    }
  }

  lemma {:induction false} PokeFrom(s: Schema, size: u32, st: St)
    ensures From(s, Poke(s, size, st).ev)
    decreases s, 2, 0
  {
    PokeInFrom(s, size, st);
    WrapFrom(s, PokeIn(s, size, st), []);
  }

  lemma {:induction false} PokeInFrom(s: Schema, size: u32, st: St)
    ensures From(s, PokeIn(s, size, st).ev) && Inner(s, PokeIn(s, size, st).ev)
    decreases s, if st.Hdr? then 1 else 0, if st.Kids? then st.count - st.k else 0, 1
  {
    if st.Hdr? && HeadOf(s, size, st.nums, st.seen).Ready? {
      var count := HeadOf(s, size, st.nums, st.seen).count;
      var next := if s.Bytes? then Raw(st.nums[0], 0) else Kids(st.nums, count, 0, FirstKid(s, st.nums, count, 0));
      PokeInFrom(s, size, next);
      EnterInner(s, st.nums, count);
      FromPlus(s, EnterEv(s, st.nums, count), PokeIn(s, size, next).ev);
      InnerPlus(s, EnterEv(s, st.nums, count), PokeIn(s, size, next).ev);
    } else if st.Kids? && Fits(s, st.nums, st.count) && st.k < st.count {
      var c, csize := ChildOf(s, st.nums, st.count, st.k), ChildSize(s, size, st.nums, st.count, st.k);
      PokeFrom(c, csize, st.child);
      AfterFrom(s, size, st.nums, st.count, st.k, Poke(c, csize, st.child));
    }
  }

  lemma {:induction false} AfterFrom(s: Schema, size: u32, nums: seq<u32>, count: nat, k: nat, c: Out)
    requires Fits(s, nums, count) && k < count
    requires From(ChildOf(s, nums, count, k), c.ev)
    ensures From(s, After(s, size, nums, count, k, c).ev) && Inner(s, After(s, size, nums, count, k, c).ev)
    decreases s, 0, count - k, 0
  {
    KidIsChild(s, nums, count, k);
    FromUp(s, ChildOf(s, nums, count, k), c.ev);
    if c.rv == COMPLETE {
      var next := Kids(nums, count, k + 1, FirstKid(s, nums, count, k + 1));
      PokeInFrom(s, size, next);
      BetweenInner(s, k);
      FromPlus(s, c.ev, BetweenEv(s, k));
      InnerPlus(s, c.ev, BetweenEv(s, k));
      FromPlus(s, c.ev + BetweenEv(s, k), PokeIn(s, size, next).ev);
      InnerPlus(s, c.ev + BetweenEv(s, k), PokeIn(s, size, next).ev);
    }
  }

  lemma {:induction false} StepFrom(s: Schema, size: u32, st: St, b: u8)
    ensures From(s, Step(s, size, st, b).ev)
  {
    FromNil(s);
    hide From;
    match st {
      case Buf(buf) => FromOne(s, Leaf(s.tag, buf + [b]));
      case Hdr(nums, seen, part) =>
        if |part| == 3 {
          PokeInFrom(s, size, Hdr(Retain(s, nums, Unpack(part + [b])), seen + 1, []));
        }
      case Raw(_, _) => FromOne(s, Body(s.tag, [b]));
      case Kids(nums, count, k, child) =>
        if Fits(s, nums, count) && k < count {
          var c, csize := ChildOf(s, nums, count, k), ChildSize(s, size, nums, count, k);
          StepFrom(c, csize, child, b);
          AfterFrom(s, size, nums, count, k, Step(c, csize, child, b));
        }
    }
    WrapFrom(s, StepIn(s, size, st, b), [b]);
  }

  lemma {:induction false} FoldFrom(s: Schema, size: u32, st: St, bs: seq<u8>)
    ensures From(s, Fold(s, size, st, bs).ev)
    decreases |bs|
  {
    if bs != [] {
      var o := Step(s, size, st, bs[0]);
      StepFrom(s, size, st, bs[0]);
      if o.rv == INCOMPLETE {
        FoldFrom(s, size, o.st, bs[1..]);
        FromPlus(s, o.ev, Fold(s, size, o.st, bs[1..]).ev);
      }
    }
  }

  lemma {:induction false} GoFrom(s: Schema, size: u32, st: St, bs: seq<u8>)
    ensures From(s, Go(s, size, st, bs).ev)
  {
    PokeFrom(s, size, st);
    var p := Poke(s, size, st);
    if p.rv == INCOMPLETE {
      FoldFrom(s, size, p.st, bs);
      FromPlus(s, p.ev, Fold(s, size, p.st, bs).ev);
    }
  }

  // ---------- Resting states ----------

  /** A state in which nothing happens until a byte arrives. */
  predicate Still(s: Schema, size: u32, st: St) {
    match st
    case Buf(buf) => s.Array? || (s.Byte? && size == 1)
    case Hdr(nums, seen, part) => HeadOf(s, size, nums, seen) == More && |part| < 4
    case Raw(len, got) => s.Bytes? && got < len
    case Kids(nums, count, k, child) =>
      Fits(s, nums, count) && k < count
      && Still(ChildOf(s, nums, count, k), ChildSize(s, size, nums, count, k), child)
  }

  /** No channel at all shows these callbacks. */
  ghost predicate Blank(ev: seq<Event>) {
    forall K: Channel :: View(K, ev) == []
  }

  lemma {:induction false} BlankChunk(s: Schema, ev: seq<Event>)
    requires Blank(ev)
    ensures Blank(ev + [Chunk(s.tag, [])])
  {
    forall K: Channel ensures View(K, ev + [Chunk(s.tag, [])]) == [] {
      ViewPlus(K, ev, [Chunk(s.tag, [])]);
      OneView(K, Chunk(s.tag, []));
    }
  }

  lemma {:induction false} StillPoke(s: Schema, size: u32, st: St)
    requires Still(s, size, st)
    ensures var p := Poke(s, size, st); p.rv == INCOMPLETE && p.st == st && Blank(p.ev)
  {
    if st.Kids? {
      var c, csize := ChildOf(s, st.nums, st.count, st.k), ChildSize(s, size, st.nums, st.count, st.k);
      StillPoke(c, csize, st.child);
      var o := Poke(c, csize, st.child);
      assert PokeIn(s, size, st) == After(s, size, st.nums, st.count, st.k, o);
    }
    var o := PokeIn(s, size, st);
    assert o.rv == INCOMPLETE && o.st == st && Blank(o.ev);
    if !s.IsLeaf() { BlankChunk(s, o.ev); }
    assert Poke(s, size, st) == Wrap(s, o, []);
    assert Wrap(s, o, []).ev == if s.IsLeaf() then o.ev else o.ev + [Chunk(s.tag, [])];
  }

  /** The state is of the kind the reader of this schema uses. */
  predicate Shaped(s: Schema, st: St) {
    match st
    case Buf(_) => s.IsLeaf()
    case Hdr(_, _, part) => !s.IsLeaf() && |part| < 4
    case Raw(_, _) => s.Bytes?
    case Kids(nums, count, k, child) =>
      Fits(s, nums, count) && (k < count ==> Shaped(ChildOf(s, nums, count, k), child))
  }

  lemma {:induction false} PokeStill(s: Schema, size: u32, st: St)
    requires Shaped(s, st) && Poke(s, size, st).rv == INCOMPLETE
    ensures Still(s, size, Poke(s, size, st).st)
    decreases s, 2, 0
  {
    PokeInStill(s, size, st);
  }

  lemma {:induction false} PokeInStill(s: Schema, size: u32, st: St)
    requires Shaped(s, st) && PokeIn(s, size, st).rv == INCOMPLETE
    ensures Still(s, size, PokeIn(s, size, st).st)
    decreases s, if st.Hdr? then 1 else 0, if st.Kids? then st.count - st.k else 0, 1
  {
    match st {
      case Buf(_) =>
      case Raw(_, _) =>
      case Hdr(nums, seen, _) =>
        var h := HeadOf(s, size, nums, seen);
        if h.Ready? && !s.Bytes? {
          PokeInStill(s, size, Kids(nums, h.count, 0, FirstKid(s, nums, h.count, 0)));
        }
      case Kids(nums, count, k, child) =>
        var c, csize := ChildOf(s, nums, count, k), ChildSize(s, size, nums, count, k);
        var o := Poke(c, csize, child);
        if o.rv == INCOMPLETE { PokeStill(c, csize, child); }
        AfterStill(s, size, nums, count, k, o);
    }
  }

  lemma {:induction false} AfterStill(s: Schema, size: u32, nums: seq<u32>, count: nat, k: nat, c: Out)
    requires Fits(s, nums, count) && k < count
    requires c.rv == INCOMPLETE ==> Still(ChildOf(s, nums, count, k), ChildSize(s, size, nums, count, k), c.st)
    requires After(s, size, nums, count, k, c).rv == INCOMPLETE
    ensures Still(s, size, After(s, size, nums, count, k, c).st)
    decreases s, 0, count - k, 0
  {
    if c.rv == COMPLETE {
      PokeInStill(s, size, Kids(nums, count, k + 1, FirstKid(s, nums, count, k + 1)));
    }
  }

  lemma {:induction false} StepStill(s: Schema, size: u32, st: St, b: u8)
    requires Still(s, size, st) && Step(s, size, st, b).rv == INCOMPLETE
    ensures Still(s, size, Step(s, size, st, b).st)
  {
    match st {
      case Buf(_) =>
      case Raw(_, _) =>
      case Hdr(nums, seen, part) =>
        if |part| == 3 {
          PokeInStill(s, size, Hdr(Retain(s, nums, Unpack(part + [b])), seen + 1, []));
        }
      case Kids(nums, count, k, child) =>
        var c, csize := ChildOf(s, nums, count, k), ChildSize(s, size, nums, count, k);
        var o := Step(c, csize, child, b);
        if o.rv == INCOMPLETE { StepStill(c, csize, child, b); }
        AfterStill(s, size, nums, count, k, o);
    }
  }

  lemma {:induction false} FoldStill(s: Schema, size: u32, st: St, bs: seq<u8>)
    requires Still(s, size, st) && Fold(s, size, st, bs).rv == INCOMPLETE
    ensures Still(s, size, Fold(s, size, st, bs).st)
    decreases |bs|
  {
    if bs != [] {
      StepStill(s, size, st, bs[0]);
      FoldStill(s, size, Step(s, size, st, bs[0]).st, bs[1..]);
    }
  }

  lemma {:induction false} GoStill(s: Schema, size: u32, st: St, bs: seq<u8>)
    requires Shaped(s, st) && Go(s, size, st, bs).rv == INCOMPLETE
    ensures Still(s, size, Go(s, size, st, bs).st)
  {
    PokeStill(s, size, st);
    FoldStill(s, size, Poke(s, size, st).st, bs);
  }

  lemma {:induction false} InitShaped(s: Schema)
    ensures Shaped(s, Init(s))
  {
  }

  lemma StillShaped(s: Schema, size: u32, st: St)
    requires Still(s, size, st)
    ensures Shaped(s, st)
  {
  }

  // ---------- Runs split ----------

  /** A run whose first step had the outcome `o`. */
  function FoldAfter(s: Schema, size: u32, o: Out, bs: seq<u8>): Res {
    if o.rv != INCOMPLETE then Res(o.rv, o.st, o.ev, 1) else Then(o.ev, 1, Fold(s, size, o.st, bs))
  }

  lemma {:induction false} FoldCons(s: Schema, size: u32, st: St, bs: seq<u8>)
    requires bs != []
    ensures Fold(s, size, st, bs) == FoldAfter(s, size, Step(s, size, st, bs[0]), bs[1..])
  {
  }

  lemma {:induction false} FoldSplit(s: Schema, size: u32, st: St, a: seq<u8>, b: seq<u8>)
    ensures var r := Fold(s, size, st, a);
            Fold(s, size, st, a + b)
            == if r.rv == INCOMPLETE then Then(r.ev, |a|, Fold(s, size, r.st, b)) else r
    decreases |a|
  {
    if a == [] {
      assert a + b == b;
      var r := Fold(s, size, st, b);
      assert Then([], 0, r) == r;
    } else {
      var o := Step(s, size, st, a[0]);
      FoldCons(s, size, st, a);
      FoldCons(s, size, st, a + b);
      assert (a + b)[0] == a[0] && (a + b)[1..] == a[1..] + b;
      if o.rv == INCOMPLETE {
        FoldSplit(s, size, o.st, a[1..], b);
        var r1 := Fold(s, size, o.st, a[1..]);
        if r1.rv == INCOMPLETE { ThenThen(o.ev, 1, r1.ev, |a| - 1, Fold(s, size, r1.st, b)); }
      }
    }
  }

  lemma {:induction false} GoOnStill(s: Schema, size: u32, st: St, bs: seq<u8>)
    requires Still(s, size, st)
    ensures Eqv(s, Go(s, size, st, bs), Fold(s, size, st, bs))
  {
    StillPoke(s, size, st);
    var p, r := Poke(s, size, st), Fold(s, size, st, bs);
    forall K | Anti(K, s) ensures View(K, p.ev + r.ev) == View(K, r.ev) { ViewPlus(K, p.ev, r.ev); }
  }

  /** A call on `a + b` is a call on `a` followed, if it asks for more, by a call on `b`. */
  lemma {:induction false} GoSplit(s: Schema, size: u32, st: St, a: seq<u8>, b: seq<u8>)
    requires Shaped(s, st)
    ensures var r := Go(s, size, st, a);
            Eqv(s, Go(s, size, st, a + b),
                if r.rv == INCOMPLETE then Then(r.ev, |a|, Go(s, size, r.st, b)) else r)
  {
    var p := Poke(s, size, st);
    if p.rv == INCOMPLETE {
      PokeStill(s, size, st);
      FoldSplit(s, size, p.st, a, b);
      var f := Fold(s, size, p.st, a);
      if f.rv == INCOMPLETE {
        FoldStill(s, size, p.st, a);
        GoOnStill(s, size, f.st, b);
        var g := Go(s, size, f.st, b);
        ThenThen(p.ev, 0, f.ev, |a|, Fold(s, size, f.st, b));
        EqvThen(s, p.ev + f.ev, p.ev + f.ev, |a|, Fold(s, size, f.st, b), g);
      }
    }
  }
}
