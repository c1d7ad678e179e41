/** A reader fed the serialization of a value reports exactly that value, and is complete
    exactly at its last byte. */
module RoundTrip {
  import opened Words
  import opened Schema
  import opened Automaton
  import opened Views
  import opened Lifting
  import opened Runs
  import opened Encoding

  predicate IsFixed(s: Schema) {
    match s
    case Byte(_) => true
    case Array(_, _) => true
    case Struct(_, fields) => forall i | 0 <= i < |fields| :: IsFixed(fields[i])
    case _ => false
  }

  /** The rules by which Molecule schemas are formed. */
  predicate Regular(s: Schema) {
    match s
    case Byte(_) => true
    case Array(_, n) => n > 0
    case Bytes(_) => true
    case Struct(_, fields) =>
      && fields != [] && FixedSize(s) < U32_SIZE
      && (forall i | 0 <= i < |fields| :: IsFixed(fields[i]) && Regular(fields[i]))
    case Table(_, fields) => forall i | 0 <= i < |fields| :: Regular(fields[i])
    case FixVec(_, item, _) => IsFixed(item) && Regular(item) && FixedSize(item) < U32_SIZE
    case DynVec(_, item) => Regular(item) && !item.Option? && !item.Byte?
    case Option(_, item) => Regular(item) && !item.Option?
  }

  // ---------- Lengths ----------

  lemma {:induction false} JoinPlus(a: seq<seq<u8>>, b: seq<seq<u8>>)
    ensures Join(a + b) == Join(a) + Join(b)
    decreases |a|
  {
    if a == [] {
      assert a + b == b;
    } else {
      JoinPlus(a[1..], b);
      assert (a + b)[1..] == a[1..] + b;
    }
  }

  lemma {:induction false} JoinSplit(parts: seq<seq<u8>>, i: nat)
    requires i <= |parts|
    ensures Join(parts) == Join(parts[..i]) + Join(parts[i..])
  {
    JoinPlus(parts[..i], parts[i..]);
    assert parts[..i] + parts[i..] == parts;
  }

  lemma {:induction false} JoinOne(p: seq<u8>)
    ensures Join([p]) == p
  {
    assert [p][1..] == [];
  }

  lemma {:induction false} JoinUpTo(parts: seq<seq<u8>>, i: nat)
    requires i < |parts|
    ensures |Join(parts[..i + 1])| == |Join(parts[..i])| + |parts[i]| <= |Join(parts)|
  {
    JoinSplit(parts[..i + 1], i);
    assert parts[..i + 1][..i] == parts[..i] && parts[..i + 1][i..] == [parts[i]];
    JoinOne(parts[i]);
    JoinSplit(parts, i + 1);
  }

  lemma {:induction false} OffsAt(parts: seq<seq<u8>>, at: nat, i: nat)
    requires i < |parts|
    ensures Offs(parts, at)[i] == Low32(at + |Join(parts[..i])|)
  {
    if i > 0 {
      OffsAt(parts[1..], at + |parts[0]|, i - 1);
      assert parts[..i][1..] == parts[1..][..i - 1];
    }
  }

  lemma {:induction false} SumJoin(s: Schema, vals: seq<Val>, k: nat)
    requires s.Struct? && k <= |vals| == |s.fields|
    requires forall i | 0 <= i < |vals| :: Typed(s.fields[i], vals[i]) && |Encode(s.fields[i], vals[i])| == FixedSize(s.fields[i])
    ensures |Join(Parts(s, vals, k))| == SumSizes(s.fields[k..])
    decreases |vals| - k
  {
    if k < |vals| {
      SumJoin(s, vals, k + 1);
      assert s.fields[k..][1..] == s.fields[k + 1..];
      assert Parts(s, vals, k)[1..] == Parts(s, vals, k + 1);
    }
  }

  lemma {:induction false} FixedLen(s: Schema, v: Val)
    requires Regular(s) && IsFixed(s) && Typed(s, v)
    ensures |Encode(s, v)| == FixedSize(s) > 0
    decreases s
  {
    if s.Struct? {
      forall i | 0 <= i < |v.vals| ensures |Encode(s.fields[i], v.vals[i])| == FixedSize(s.fields[i]) > 0 {
        FixedLen(s.fields[i], v.vals[i]);
      }
      SumJoin(s, v.vals, 0);
      assert s.fields[0..] == s.fields;
    }
  }

  lemma {:induction false} NonEmpty(s: Schema, v: Val)
    requires Regular(s) && Typed(s, v) && !s.Option?
    ensures |Encode(s, v)| > 0
  {
    if IsFixed(s) { FixedLen(s, v); }
  }

  lemma {:induction false} JoinTimes(parts: seq<seq<u8>>, each: nat)
    requires forall i | 0 <= i < |parts| :: |parts[i]| == each
    ensures |Join(parts)| == Times(|parts|, each)
  {
    if parts != [] { JoinTimes(parts[1..], each); }
  }

  // ---------- Header words ----------

  lemma {:induction false} WordGo(s: Schema, size: u32, nums: seq<u32>, seen: nat, w: u32, rest: seq<u8>)
    requires !s.IsLeaf() && HeadOf(s, size, nums, seen) == More
    ensures Eqv(s, Go(s, size, Hdr(nums, seen, []), Pack(w) + rest),
                Owing(s, [], Pack(w), Go(s, size, Hdr(Retain(s, nums, w), seen + 1, []), rest)))
  {
    HdrGo(s, size, nums, seen, [], Pack(w) + rest);
    assert (Pack(w) + rest)[..4] == Pack(w) && (Pack(w) + rest)[4..] == rest;
    assert [] + Pack(w) == Pack(w);
    UnpackPack(w);
  }

  /** The words of a header, read one after the other. */
  function Read(s: Schema, nums: seq<u32>, ws: seq<u32>): seq<u32>
    decreases |ws|
  {
    if ws == [] then nums else Read(s, Retain(s, nums, ws[0]), ws[1..])
  }

  /** Up to the last of these words, the header asks for more. */
  predicate AsksFor(s: Schema, size: u32, nums: seq<u32>, seen: nat, ws: seq<u32>)
    decreases |ws|
  {
    ws != [] ==> HeadOf(s, size, nums, seen) == More && AsksFor(s, size, Retain(s, nums, ws[0]), seen + 1, ws[1..])
  }

  lemma {:induction false} WordsGo(s: Schema, size: u32, nums: seq<u32>, seen: nat, ws: seq<u32>, rest: seq<u8>)
    requires !s.IsLeaf() && AsksFor(s, size, nums, seen, ws)
    ensures Eqv(s, Go(s, size, Hdr(nums, seen, []), WordBytes(ws) + rest),
                Owing(s, [], WordBytes(ws), Go(s, size, Hdr(Read(s, nums, ws), seen + |ws|, []), rest)))
    decreases |ws|
  {
    if ws == [] {
      assert WordBytes(ws) + rest == rest;
      OweNothing(s, Go(s, size, Hdr(nums, seen, []), rest));
    } else {
      var w, ws' := ws[0], ws[1..];
      var nums' := Retain(s, nums, w);
      WordGo(s, size, nums, seen, w, WordBytes(ws') + rest);
      assert WordBytes(ws) + rest == Pack(w) + (WordBytes(ws') + rest);
      WordsGo(s, size, nums', seen + 1, ws', rest);
      var next := Go(s, size, Hdr(Read(s, nums, ws), seen + |ws|, []), rest);
      var cur := Go(s, size, Hdr(nums', seen + 1, []), WordBytes(ws') + rest);
      ToNext(s, Go(s, size, Hdr(nums, seen, []), WordBytes(ws) + rest), [], Pack(w), cur, [], WordBytes(ws'), next);
    }
  }

  lemma {:induction false} ReadAll(s: Schema, nums: seq<u32>, ws: seq<u32>)
    requires !s.DynVec?
    ensures Read(s, nums, ws) == nums + ws
    decreases |ws|
  {
    if ws != [] {
      ReadAll(s, nums + [ws[0]], ws[1..]);
      assert nums + [ws[0]] + ws[1..] == nums + ws;
    }
  }

  lemma {:induction false} ReadTwo(s: Schema, a: u32, b: u32, ws: seq<u32>)
    requires s.DynVec?
    ensures Read(s, [a, b], ws) == [a, b]
    decreases |ws|
  {
    if ws != [] { ReadTwo(s, a, b, ws[1..]); }
  }

  // ---------- Headers ----------

  /** The reader may be told the size, or told that it is unknown. */
  predicate GoodSize(s: Schema, size: u32, v: Val)
    requires Typed(s, v)
  {
    && |Encode(s, v)| < U32_SIZE
    && (size == |Encode(s, v)| || (size == NUM_MAX && !s.Byte? && !s.Option?))
  }

  function HeadBytes(s: Schema, v: Val): seq<u8>
    requires Typed(s, v)
  {
    match s
    case Table(_, _) => WordBytes(HeadWords(Parts(s, v.vals, 0)))
    case DynVec(_, _) => WordBytes(HeadWords(Parts(s, v.vals, 0)))
    case FixVec(_, _, _) => Pack(Low32(|v.vals|))
    case _ => []
  }

  lemma {:induction false} EncodeParts(s: Schema, v: Val)
    requires Typed(s, v) && !s.IsLeaf() && !s.Bytes?
    ensures Encode(s, v) == HeadBytes(s, v) + Join(Parts(s, KidVals(s, v), 0))
  {
    if s.Option? && v.Some? { JoinOne(Encode(s.item, v.val)); }
  }

  /** The header of a value is read, and announces its children. */
  ghost predicate HeadRead(s: Schema, size: u32, v: Val, rest: seq<u8>)
    requires Typed(s, v)
  {
    var hb := HeadBytes(s, v);
    && HeadOf(s, size, Kept(s, v), |hb| / 4) == Ready(|KidVals(s, v)|)
    && Eqv(s, Go(s, size, Init(s), hb + rest), Owing(s, [], hb, Go(s, size, Hdr(Kept(s, v), |hb| / 4, []), rest)))
  }

  /** The words of a header, of which the reader keeps `kept`, are read one after the other. */
  lemma {:induction false} HeaderGo(s: Schema, size: u32, ws: seq<u32>, kept: seq<u32>, rest: seq<u8>)
    requires !s.IsLeaf() && AsksFor(s, size, [], 0, ws) && Read(s, [], ws) == kept
    ensures Eqv(s, Go(s, size, Hdr([], 0, []), WordBytes(ws) + rest),
                Owing(s, [], WordBytes(ws), Go(s, size, Hdr(kept, |ws|, []), rest)))
  {
    WordsGo(s, size, [], 0, ws, rest);
  }

  lemma {:induction false} TableAsksAll(s: Schema, size: u32, ws: seq<u32>)
    requires s.Table? && |ws| == 1 + |s.fields| && (size == NUM_MAX || size == ws[0])
    ensures AsksFor(s, size, [], 0, ws) && Read(s, [], ws) == ws
  {
    assert [] + ws == ws;
    TableAsks(s, size, [], ws);
    ReadAll(s, [], ws);
  }

  lemma {:induction false} TableReady(s: Schema, size: u32, ws: seq<u32>)
    requires s.Table? && |ws| == 1 + |s.fields| && (size == NUM_MAX || size == ws[0])
    ensures HeadOf(s, size, ws, |ws|) == Ready(|s.fields|)
  {
  }

  lemma {:induction false} TableAsks(s: Schema, size: u32, nums: seq<u32>, ws: seq<u32>)
    requires s.Table? && |nums| + |ws| == 1 + |s.fields| && (nums + ws == [] || size == NUM_MAX || size == (nums + ws)[0])
    ensures AsksFor(s, size, nums, |nums|, ws)
    decreases |ws|
  {
    if ws != [] {
      assert nums + [ws[0]] + ws[1..] == nums + ws;
      TableAsks(s, size, nums + [ws[0]], ws[1..]);
    }
  }

  lemma {:induction false} DynReady(s: Schema, size: u32, ws: seq<u32>)
    requires s.DynVec? && |ws| >= 2 && ws[1] == 4 * |ws| && ws[0] != 4 && (size == NUM_MAX || size == ws[0])
    ensures HeadOf(s, size, ws[..2], |ws|) == Ready(|ws| - 1)
  {
    assert ItemCount(ws[1]) == |ws| - 1;
  }

  lemma {:induction false} DynAsksAll(s: Schema, size: u32, ws: seq<u32>)
    requires s.DynVec? && |ws| >= 2 && ws[1] == 4 * |ws| && ws[0] != 4 && (size == NUM_MAX || size == ws[0])
    ensures AsksFor(s, size, [], 0, ws) && Read(s, [], ws) == ws[..2]
  {
    var a, b, more := ws[0], ws[1], ws[1..][1..];
    assert ItemCount(b) == |ws| - 1;
    assert ws[..2] == [a, b] && ws[1..][0] == b;
    assert Retain(s, [], a) == [a] && Retain(s, [a], b) == [a, b];
    DynAsks(s, size, a, b, 2, more);
    assert AsksFor(s, size, [a], 1, ws[1..]);
    assert Read(s, [], ws) == Read(s, [a], ws[1..]) == Read(s, [a, b], more);
    ReadTwo(s, a, b, more);
  }

  lemma {:induction false} DynAsks(s: Schema, size: u32, a: u32, b: u32, seen: nat, ws: seq<u32>)
    requires s.DynVec? && a != 4 && (size == NUM_MAX || size == a) && seen + |ws| == 1 + ItemCount(b)
    ensures AsksFor(s, size, [a, b], seen, ws)
    decreases |ws|
  {
    if ws != [] { DynAsks(s, size, a, b, seen + 1, ws[1..]); }
  }

  lemma {:induction false} TableHead(s: Schema, size: u32, v: Val, rest: seq<u8>)
    requires Typed(s, v) && GoodSize(s, size, v) && s.Table?
    ensures HeadRead(s, size, v, rest)
  {
    var ws := HeadWords(Parts(s, v.vals, 0));
    TotalWord(Parts(s, v.vals, 0));
    TableReady(s, size, ws);
    TableAsksAll(s, size, ws);
    HeaderGo(s, size, ws, ws, rest);
  }

  lemma {:induction false} TotalWord(parts: seq<seq<u8>>)
    requires |WordBytes(HeadWords(parts)) + Join(parts)| < U32_SIZE
    ensures HeadWords(parts)[0] == |WordBytes(HeadWords(parts)) + Join(parts)|
    ensures parts != [] ==> HeadWords(parts)[1] == 4 * |HeadWords(parts)| && HeadWords(parts)[0] > 4
  {
  }

  lemma {:induction false} DynHead(s: Schema, size: u32, v: Val, rest: seq<u8>)
    requires Typed(s, v) && GoodSize(s, size, v) && s.DynVec? && v.vals != []
    ensures HeadRead(s, size, v, rest)
  {
    var ws := HeadWords(Parts(s, v.vals, 0));
    TotalWord(Parts(s, v.vals, 0));
    DynReady(s, size, ws);
    DynAsksAll(s, size, ws);
    HeaderGo(s, size, ws, ws[..2], rest);
  }

  lemma {:induction false} FixVecLen(s: Schema, v: Val)
    requires Regular(s) && Typed(s, v) && s.FixVec?
    ensures |Encode(s, v)| == 4 + Times(|v.vals|, FixedSize(s.item))
    ensures |v.vals| <= Times(|v.vals|, FixedSize(s.item))
  {
    var parts, each := Parts(s, v.vals, 0), FixedSize(s.item);
    forall i | 0 <= i < |parts| ensures |parts[i]| == each { FixedLen(s.item, v.vals[i]); }
    JoinTimes(parts, each);
    FixedPositive(s.item);
    TimesAtLeast(|v.vals|, each);
  }

  lemma {:induction false} FixedPositive(s: Schema)
    requires Regular(s) && IsFixed(s)
    ensures FixedSize(s) > 0
  {
    if s.Struct? { FixedPositive(s.fields[0]); }
  }

  lemma {:induction false} FixVecHead(s: Schema, size: u32, v: Val, rest: seq<u8>)
    requires Regular(s) && Typed(s, v) && GoodSize(s, size, v) && s.FixVec?
    ensures HeadRead(s, size, v, rest)
  {
    VecSizes(s, size, v);
    VecReady(s, size, |v.vals|, rest);
  }

  lemma {:induction false} VecSizes(s: Schema, size: u32, v: Val)
    requires Regular(s) && Typed(s, v) && GoodSize(s, size, v) && s.FixVec?
    ensures var n := |v.vals|;
            && n < U32_SIZE && Times(n, FixedSize(s.item)) + 4 < U32_SIZE && Times(n, FixedSize(s.item)) <= s.limit
            && (size == NUM_MAX || size == Times(n, FixedSize(s.item)) + 4)
            && HeadBytes(s, v) == Pack(n) && Kept(s, v) == [n] && KidVals(s, v) == v.vals
  {
    FixVecLen(s, v);
    VecTyped(s, v);
    assert |Encode(s, v)| < U32_SIZE;
    hide Typed, Regular, Times, Parts, Join, FixedSize, Encode, Pack;
  }

  lemma {:induction false} VecTyped(s: Schema, v: Val)
    requires Typed(s, v) && s.FixVec?
    ensures v.Items? && Times(|v.vals|, FixedSize(s.item)) <= s.limit
  {
  }

  lemma {:induction false} VecReady(s: Schema, size: u32, n: u32, rest: seq<u8>)
    requires s.FixVec? && Times(n, FixedSize(s.item)) + 4 < U32_SIZE && Times(n, FixedSize(s.item)) <= s.limit
    requires size == NUM_MAX || size == Times(n, FixedSize(s.item)) + 4
    ensures HeadOf(s, size, [n], 1) == Ready(n)
    ensures Eqv(s, Go(s, size, Hdr([], 0, []), Pack(n) + rest), Owing(s, [], Pack(n), Go(s, size, Hdr([n], 1, []), rest)))
  {
    assert HeadOf(s, size, [], 0) == More && Retain(s, [], n) == [n];
    WordGo(s, size, [], 0, n, rest);
  }

  lemma {:induction false} HeadTrip(s: Schema, size: u32, v: Val, rest: seq<u8>)
    requires Regular(s) && Typed(s, v) && GoodSize(s, size, v) && !s.IsLeaf() && !s.Bytes? && !Hollow(s, v)
    ensures HeadRead(s, size, v, rest) && Fits(s, Kept(s, v), |KidVals(s, v)|)
  {
    match s {
      case Table(_, _) => TableHead(s, size, v, rest);
      case DynVec(_, _) => DynHead(s, size, v, rest);
      case FixVec(_, _, _) => FixVecHead(s, size, v, rest);
      case Struct(_, _) =>
        if IsFixed(s) { FixedLen(s, v); }
        assert [] + rest == rest;
        OweNothing(s, Go(s, size, Init(s), rest));
      case Option(_, _) =>
        NonEmpty(s.item, v.val);
        assert [] + rest == rest;
        OweNothing(s, Go(s, size, Init(s), rest));
    }
  }

  // ---------- Children ----------

  lemma {:induction false} KidSize(s: Schema, size: u32, v: Val, i: nat)
    requires Regular(s) && Typed(s, v) && GoodSize(s, size, v) && !s.IsLeaf() && !s.Bytes? && !Hollow(s, v)
    requires Fits(s, Kept(s, v), |KidVals(s, v)|) && i < |KidVals(s, v)|
    ensures ChildOf(s, Kept(s, v), |KidVals(s, v)|, i) == Kid(s, i)
    ensures Regular(Kid(s, i)) && Typed(Kid(s, i), KidVals(s, v)[i])
    ensures GoodSize(Kid(s, i), ChildSize(s, size, Kept(s, v), |KidVals(s, v)|, i), KidVals(s, v)[i])
  {
    KidSmall(s, v, i);
    match s {
      case Table(_, _) =>
        EncodeParts(s, v);
        TableKidSize(Parts(s, v.vals, 0), i);
      case DynVec(_, _) =>
      case Option(_, _) =>
      case _ => FixedKidSize(s, size, v, i);
    }
  }

  lemma {:induction false} FixedKidSize(s: Schema, size: u32, v: Val, i: nat)
    requires Regular(s) && Typed(s, v) && (s.Struct? || s.FixVec?)
    requires Fits(s, Kept(s, v), |KidVals(s, v)|) && i < |KidVals(s, v)| && |Encode(Kid(s, i), KidVals(s, v)[i])| < U32_SIZE
    ensures GoodSize(Kid(s, i), ChildSize(s, size, Kept(s, v), |KidVals(s, v)|, i), KidVals(s, v)[i])
  {
    FixedLen(Kid(s, i), KidVals(s, v)[i]);
  }

  lemma {:induction false} KidSmall(s: Schema, v: Val, i: nat)
    requires Typed(s, v) && !s.IsLeaf() && !s.Bytes? && i < |KidVals(s, v)|
    ensures Typed(Kid(s, i), KidVals(s, v)[i])
    ensures |Encode(Kid(s, i), KidVals(s, v)[i])| <= |Encode(s, v)|
  {
    EncodeParts(s, v);
    JoinUpTo(Parts(s, KidVals(s, v), 0), i);
  }

  /** Where part `i` starts, the end counting as one more part. */
  lemma {:induction false} HeadWordAt(parts: seq<seq<u8>>, i: nat)
    requires i <= |parts| && 4 + 4 * |parts| + |Join(parts)| < U32_SIZE
    ensures (if i < |parts| then HeadWords(parts)[i + 1] else HeadWords(parts)[0]) == 4 + 4 * |parts| + |Join(parts[..i])|
  {
    if i < |parts| {
      OffsAt(parts, 4 + 4 * |parts|, i);
      JoinUpTo(parts, i);
      assert HeadWords(parts)[i + 1] == Offs(parts, 4 + 4 * |parts|)[i];
    } else {
      assert parts[..i] == parts;
    }
  }

  lemma {:induction false} TableKidSize(parts: seq<seq<u8>>, i: nat)
    requires i < |parts| && 4 + 4 * |parts| + |Join(parts)| < U32_SIZE
    ensures Sub32(if i + 1 < |parts| then HeadWords(parts)[i + 2] else HeadWords(parts)[0], HeadWords(parts)[i + 1]) == |parts[i]|
  {
    HeadWordAt(parts, i);
    HeadWordAt(parts, i + 1);
    JoinUpTo(parts, i);
  }

  /** The node's bytes so far and those that follow, up to its end. */
  lemma {:induction false} Finish(s: Schema, g: Res, ev: seq<Event>, pre: seq<u8>, cur: Res, ev': seq<Event>, bs: seq<u8>)
    requires Inner(s, ev') && Eqv(s, g, Owing(s, ev, pre, cur))
    requires Eqv(s, cur, Res(COMPLETE, Buf([]), ev' + [Chunk(s.tag, bs), End(s.tag)], |bs|))
    ensures Eqv(s, g, Res(COMPLETE, Buf([]), ev + ev' + [Chunk(s.tag, pre + bs), End(s.tag)], |pre| + |bs|))
  {
    var end := Res(COMPLETE, Buf([]), [End(s.tag)], 0);
    assert ev' + [Chunk(s.tag, bs)] + [End(s.tag)] == ev' + [Chunk(s.tag, bs), End(s.tag)];
    ToNext(s, g, ev, pre, cur, ev', bs, end);
    assert ev + ev' + [Chunk(s.tag, pre + bs)] + [End(s.tag)] == ev + ev' + [Chunk(s.tag, pre + bs), End(s.tag)];
  }

  /** What a trip of a value through its reader amounts to. */
  ghost predicate Trip(s: Schema, size: u32, v: Val, rest: seq<u8>)
    requires Typed(s, v)
  {
    Eqv(s, Go(s, size, Init(s), Encode(s, v) + rest), Res(COMPLETE, Buf([]), Replay(s, v), |Encode(s, v)|))
  }

  ghost predicate KidsTripped(s: Schema, size: u32, v: Val, k: nat, rest: seq<u8>)
    requires Typed(s, v) && !s.IsLeaf() && !s.Bytes? && k <= |KidVals(s, v)|
    requires Fits(s, Kept(s, v), |KidVals(s, v)|)
  {
    var vals, nums := KidVals(s, v), Kept(s, v);
    var bs := Join(Parts(s, vals, k));
    && Inner(s, ReplayKids(s, vals, k))
    && Eqv(s, Go(s, size, Kids(nums, |vals|, k, FirstKid(s, nums, |vals|, k)), bs + rest),
           Res(COMPLETE, Buf([]), ReplayKids(s, vals, k) + [Chunk(s.tag, bs), End(s.tag)], |bs|))
  }

  lemma {:induction false} KidsTrip(s: Schema, size: u32, v: Val, k: nat, rest: seq<u8>)
    requires Regular(s) && Typed(s, v) && GoodSize(s, size, v) && !s.IsLeaf() && !s.Bytes? && !Hollow(s, v)
    requires Fits(s, Kept(s, v), |KidVals(s, v)|) && k <= |KidVals(s, v)|
    ensures KidsTripped(s, size, v, k, rest)
    decreases s, 0, |KidVals(s, v)| - k
  {
    hide Go, Eqv, Same, Encode, Inner, Parts, ReplayKids, Regular, Hollow, FirstKid;
    if k == |KidVals(s, v)| {
      KidsOver(s, size, v, rest);
    } else {
      KidSize(s, size, v, k);
      Trips(Kid(s, k), ChildSize(s, size, Kept(s, v), |KidVals(s, v)|, k), KidVals(s, v)[k],
            Join(Parts(s, KidVals(s, v), k + 1)) + rest);
      KidsTrip(s, size, v, k + 1, rest);
      KidStep(s, size, v, k, rest);
    }
  }

  lemma {:induction false} KidsOver(s: Schema, size: u32, v: Val, rest: seq<u8>)
    requires Typed(s, v) && !s.IsLeaf() && !s.Bytes? && Fits(s, Kept(s, v), |KidVals(s, v)|)
    ensures KidsTripped(s, size, v, |KidVals(s, v)|, rest)
  {
    var n, nums := |KidVals(s, v)|, Kept(s, v);
    var st := Kids(nums, n, n, FirstKid(s, nums, n, n));
    assert PokeIn(s, size, st) == Out(COMPLETE, st, []);
    assert [] + [Chunk(s.tag, []), End(s.tag)] == [Chunk(s.tag, []), End(s.tag)];
  }

  lemma {:induction false} KidStep(s: Schema, size: u32, v: Val, k: nat, rest: seq<u8>)
    requires Typed(s, v) && !s.IsLeaf() && !s.Bytes? && k < |KidVals(s, v)|
    requires Fits(s, Kept(s, v), |KidVals(s, v)|) && ChildOf(s, Kept(s, v), |KidVals(s, v)|, k) == Kid(s, k)
    requires Typed(Kid(s, k), KidVals(s, v)[k])
    requires Trip(Kid(s, k), ChildSize(s, size, Kept(s, v), |KidVals(s, v)|, k), KidVals(s, v)[k],
                  Join(Parts(s, KidVals(s, v), k + 1)) + rest)
    requires KidsTripped(s, size, v, k + 1, rest)
    ensures KidsTripped(s, size, v, k, rest)
  {
    hide Go, Eqv, Same, Fits, ChildOf, ChildSize, BetweenEv, Inner;
    var vals, nums := KidVals(s, v), Kept(s, v);
    var c := Kid(s, k);
    var part, later := Encode(c, vals[k]), Join(Parts(s, vals, k + 1));
    KidThenRest(s, size, nums, |vals|, k, part, later, rest, Replay(c, vals[k]), ReplayKids(s, vals, k + 1));
    assert Parts(s, vals, k) == [part] + Parts(s, vals, k + 1);
    assert Parts(s, vals, k)[1..] == Parts(s, vals, k + 1);
    assert Join(Parts(s, vals, k)) == part + later;
  }

  /** A child, and after it the rest of its parent. */
  lemma {:induction false} KidThenRest(s: Schema, size: u32, nums: seq<u32>, n: nat, k: nat, part: seq<u8>, later: seq<u8>, rest: seq<u8>,
                    ev: seq<Event>, kr: seq<Event>)
    requires Fits(s, nums, n) && k < n && Inner(s, kr)
    requires var c := ChildOf(s, nums, n, k);
             Eqv(c, Go(c, ChildSize(s, size, nums, n, k), Init(c), part + (later + rest)), Res(COMPLETE, Buf([]), ev, |part|))
    requires Eqv(s, Go(s, size, Kids(nums, n, k + 1, FirstKid(s, nums, n, k + 1)), later + rest),
                 Res(COMPLETE, Buf([]), kr + [Chunk(s.tag, later), End(s.tag)], |later|))
    ensures Inner(s, ev + BetweenEv(s, k) + kr)
    ensures Eqv(s, Go(s, size, Kids(nums, n, k, FirstKid(s, nums, n, k)), part + later + rest),
                Res(COMPLETE, Buf([]), ev + BetweenEv(s, k) + kr + [Chunk(s.tag, part + later), End(s.tag)], |part + later|))
  {
    var c := ChildOf(s, nums, n, k);
    var bs := part + (later + rest);
    var next := Go(s, size, Kids(nums, n, k + 1, FirstKid(s, nums, n, k + 1)), later + rest);
    assert bs[..|part|] == part && bs[|part|..] == later + rest && bs == part + later + rest;
    KidDone(s, size, nums, n, k, Init(c), bs, ev, |part|);
    Finish(s, Go(s, size, Kids(nums, n, k, Init(c)), bs), ev + BetweenEv(s, k), part, next, kr, later);
    InnerPlus(s, ev + BetweenEv(s, k), kr);
  }

  // ---------- The theorem ----------

  lemma {:induction false} LeafTrip(s: Schema, size: u32, v: Val, rest: seq<u8>)
    requires Regular(s) && Typed(s, v) && GoodSize(s, size, v) && s.IsLeaf()
    ensures Trip(s, size, v, rest)
  {
    var n := FixedSize(s);
    GoOnStill(s, size, Init(s), v.bytes + rest);
    BufFold(s, size, [], v.bytes + rest);
    assert (v.bytes + rest)[..n] == v.bytes && [] + v.bytes == v.bytes;
  }

  lemma {:induction false} BytesTrip(s: Schema, size: u32, v: Val, rest: seq<u8>)
    requires Typed(s, v) && GoodSize(s, size, v) && s.Bytes?
    ensures Trip(s, size, v, rest)
  {
    BytesForm(s, v);
    BodyTrip(s, size, v.bytes, rest);
    hide Go, Eqv, Same, Encode, Replay, Typed, HeadOf, Pack;
    var len := |v.bytes|;
    var tail := (if v.bytes == [] then [] else [Body(s.tag, v.bytes)]) + [End(s.tag)];
    LengthTrip(s, size, len, v.bytes + rest, tail);
    assert Encode(s, v) + rest == Pack(len) + (v.bytes + rest);
  }

  lemma {:induction false} BytesForm(s: Schema, v: Val)
    requires s.Bytes? && Typed(s, v) && |Encode(s, v)| < U32_SIZE
    ensures v.Blob? && |v.bytes| + 4 < U32_SIZE && Encode(s, v) == Pack(|v.bytes|) + v.bytes
    ensures Replay(s, v) == [Size(s.tag, Low32(|v.bytes| + 4))]
                            + ((if v.bytes == [] then [] else [Body(s.tag, v.bytes)]) + [End(s.tag)])
  {
  }

  /** A length, and after it the body of the byte string. */
  lemma {:induction false} LengthTrip(s: Schema, size: u32, len: u32, bs: seq<u8>, tail: seq<Event>)
    requires s.Bytes? && len + 4 < U32_SIZE && (size == NUM_MAX || size == len + 4)
    requires var r := Go(s, size, Raw(len, 0), bs); r.rv == COMPLETE && r.used == len && Same(s, r.ev, tail)
    ensures Eqv(s, Go(s, size, Init(s), Pack(len) + bs),
                Res(COMPLETE, Buf([]), [Size(s.tag, Low32(len + 4))] + tail, 4 + len))
  {
    WordGo(s, size, [], 0, len, bs);
    assert Retain(s, [], len) == [len];
    assert HeadOf(s, size, [len], 1) == Ready(len);
    EnterGo(s, size, [len], 1, [], bs);
    var g, body := Go(s, size, Init(s), Pack(len) + bs), Go(s, size, Raw(len, 0), bs);
    var ev := [Size(s.tag, Low32(len + 4))];
    EnterInner(s, [len], len);
    ToEnter(s, g, [], Pack(len), Go(s, size, Hdr([len], 1, []), bs), ev, body);
    assert [] + ev == ev;
    forall K | Anti(K, s) ensures View(K, ev + [Chunk(s.tag, Pack(len))] + body.ev) == View(K, ev + body.ev) {
      DropPiece(K, s, ev, Pack(len), body.ev);
    }
    SamePlus(s, ev, ev, body.ev, tail);
  }

  lemma {:induction false} BodyTrip(s: Schema, size: u32, bytes: seq<u8>, rest: seq<u8>)
    requires s.Bytes? && |bytes| < U32_SIZE
    ensures var r := Go(s, size, Raw(|bytes|, 0), bytes + rest);
            && r.rv == COMPLETE && r.used == |bytes|
            && Same(s, r.ev, (if bytes == [] then [] else [Body(s.tag, bytes)]) + [End(s.tag)])
  {
    var t, st := s.tag, Raw(|bytes|, 0);
    if bytes == [] {
      assert PokeIn(s, size, st) == Out(COMPLETE, st, []);
      assert Poke(s, size, st).ev == [] + [Chunk(t, [])] + [End(t)];
      forall K | Anti(K, s) ensures View(K, [] + [Chunk(t, [])] + [End(t)]) == View(K, [] + [End(t)]) {
        DropPiece(K, s, [], [], [End(t)]);
      }
    } else {
      GoOnStill(s, size, st, bytes + rest);
      RawFold(s, size, |bytes|, 0, bytes + rest);
      assert (bytes + rest)[..|bytes|] == bytes;
    }
  }

  lemma {:induction false} HollowTrip(s: Schema, size: u32, v: Val, rest: seq<u8>)
    requires Regular(s) && Typed(s, v) && GoodSize(s, size, v) && !s.IsLeaf() && !s.Bytes? && Hollow(s, v)
    ensures Trip(s, size, v, rest)
  {
    var t := s.tag;
    assert [] + [Chunk(t, Encode(s, v)), End(t)] == [Chunk(t, Encode(s, v)), End(t)];
    if s.Option? {
      HeadGo(s, size, Init(s), [] + rest);
    } else {
      var ws := HeadWords(Parts(s, [], 0));
      assert ws == [4] && ws[1..] == [];
      assert Encode(s, v) == Pack(4);
      WordGo(s, size, [], 0, 4, rest);
      assert Retain(s, [], 4) == [4];
      HeadGo(s, size, Hdr([4], 1, []), rest);
      var cur := Go(s, size, Hdr([4], 1, []), rest);
      ToEnd(s, Go(s, size, Init(s), Pack(4) + rest), [], Pack(4), cur);
    }
  }

  /** Streaming the serialization of a value, followed by anything, completes the reader exactly
      at the last byte of the value and reports the value, callback by callback. */
  lemma {:induction false} Trips(s: Schema, size: u32, v: Val, rest: seq<u8>)
    requires Regular(s) && Typed(s, v) && GoodSize(s, size, v)
    ensures Trip(s, size, v, rest)
    decreases s, 1, 0
  {
    if s.IsLeaf() {
      LeafTrip(s, size, v, rest);
    } else if s.Bytes? {
      BytesTrip(s, size, v, rest);
    } else if Hollow(s, v) {
      HollowTrip(s, size, v, rest);
    } else {
      HeadTrip(s, size, v, Join(Parts(s, KidVals(s, v), 0)) + rest);
      KidsTrip(s, size, v, 0, rest);
      NodeTrip(s, size, v, rest);
    }
  }

  lemma {:induction false} NodeTrip(s: Schema, size: u32, v: Val, rest: seq<u8>)
    requires Typed(s, v) && !s.IsLeaf() && !s.Bytes? && !Hollow(s, v)
    requires HeadRead(s, size, v, Join(Parts(s, KidVals(s, v), 0)) + rest)
    requires Fits(s, Kept(s, v), |KidVals(s, v)|) && KidsTripped(s, size, v, 0, rest)
    ensures Trip(s, size, v, rest)
  {
    NodeForm(s, v);
    hide Go, Eqv, Same, Encode, HeadOf, Fits, EnterEv, Replay, ReplayKids, Parts, Typed, Hollow, Kept, HeadBytes;
    var vals, hb := KidVals(s, v), HeadBytes(s, v);
    var kids, kr := Join(Parts(s, vals, 0)), ReplayKids(s, vals, 0);
    HeadThenKids(s, size, Kept(s, v), |hb| / 4, |vals|, hb, kids, rest, kr);
    assert hb + kids + rest == hb + (kids + rest);
  }

  lemma {:induction false} NodeForm(s: Schema, v: Val)
    requires Typed(s, v) && !s.IsLeaf() && !s.Bytes? && !Hollow(s, v)
    ensures Encode(s, v) == HeadBytes(s, v) + Join(Parts(s, KidVals(s, v), 0))
    ensures Replay(s, v) == EnterEv(s, Kept(s, v), |KidVals(s, v)|) + ReplayKids(s, KidVals(s, v), 0)
                            + [Chunk(s.tag, HeadBytes(s, v) + Join(Parts(s, KidVals(s, v), 0))), End(s.tag)]
  {
    EncodeParts(s, v);
  }

  lemma {:induction false} HeadThenKids(s: Schema, size: u32, nums: seq<u32>, seen: nat, n: nat, hb: seq<u8>, kids: seq<u8>,
                                        rest: seq<u8>, kr: seq<Event>)
    requires !s.IsLeaf() && !s.Bytes? && HeadOf(s, size, nums, seen) == Ready(n) && Inner(s, kr)
    requires Eqv(s, Go(s, size, Init(s), hb + (kids + rest)), Owing(s, [], hb, Go(s, size, Hdr(nums, seen, []), kids + rest)))
    requires Eqv(s, Go(s, size, Kids(nums, n, 0, FirstKid(s, nums, n, 0)), kids + rest),
                 Res(COMPLETE, Buf([]), kr + [Chunk(s.tag, kids), End(s.tag)], |kids|))
    ensures Eqv(s, Go(s, size, Init(s), hb + (kids + rest)),
                Res(COMPLETE, Buf([]), EnterEv(s, nums, n) + kr + [Chunk(s.tag, hb + kids), End(s.tag)], |hb + kids|))
  {
    var bs := kids + rest;
    var ev := EnterEv(s, nums, n);
    var g, next := Go(s, size, Init(s), hb + bs), Go(s, size, Kids(nums, n, 0, FirstKid(s, nums, n, 0)), bs);
    EnterGo(s, size, nums, seen, [], bs);
    EnterInner(s, nums, n);
    ToEnter(s, g, [], hb, Go(s, size, Hdr(nums, seen, []), bs), ev, next);
    assert [] + ev == ev;
    Finish(s, g, ev, hb, next, kr, kids);
  }

  /** The reader asks for more after every proper prefix of the serialization. */
  lemma {:induction false} NeverEarly(s: Schema, size: u32, v: Val, n: nat)
    requires Regular(s) && Typed(s, v) && GoodSize(s, size, v) && n < |Encode(s, v)|
    ensures Go(s, size, Init(s), Encode(s, v)[..n]).rv == INCOMPLETE
  {
    var bs := Encode(s, v);
    Trips(s, size, v, []);
    assert bs + [] == bs == bs[..n] + bs[n..];
    InitShaped(s);
    GoSplit(s, size, Init(s), bs[..n], bs[n..]);
  }

  // ---------- The reported callbacks ----------

  lemma {:induction false} ReplayFrom(s: Schema, v: Val)
    requires Regular(s) && Typed(s, v) && |Encode(s, v)| < U32_SIZE
    ensures From(s, Replay(s, v))
  {
    Trips(s, |Encode(s, v)|, v, []);
    GoFrom(s, |Encode(s, v)|, Init(s), Encode(s, v) + []);
    FromSame(s, Go(s, |Encode(s, v)|, Init(s), Encode(s, v) + []).ev, Replay(s, v));
  }

  lemma {:induction false} WithinInner(s: Schema, v: Val)
    requires Regular(s) && Typed(s, v) && |Encode(s, v)| < U32_SIZE && !s.IsLeaf() && !s.Bytes?
    ensures Inner(s, Within(s, v))
  {
    if !Hollow(s, v) {
      HeadTrip(s, |Encode(s, v)|, v, []);
      KidsTrip(s, |Encode(s, v)|, v, 0, []);
      EnterInner(s, Kept(s, v), |KidVals(s, v)|);
      InnerPlus(s, EnterEv(s, Kept(s, v), |KidVals(s, v)|), ReplayKids(s, KidVals(s, v), 0));
    }
  }
}
