/** What the accounting callbacks make of one cell. */
module LedgerCells {
  import opened Words
  import opened Schema
  import opened Automaton
  import opened Views
  import opened Encoding
  import opened RoundTrip
  import opened Transaction
  import opened Shapes
  import opened Ledger
  import R = Rewrite
  import W = WitnessDigest

  // ---------- Callbacks that do not matter ----------

  predicate Idle(e: Event) {
    match e
    case Chunk(_, _) => true
    case Offsets(_, _) => true
    case Length(_, _) => true
    case Index(t, _) => t !in LEDGER.inner
    case Size(t, _) => t !in LEDGER.inner
    case _ => e.tag !in LEDGER.edge
  }

  lemma {:induction false} IdleRun(k: Keys, b: Book, e: Event)
    requires Idle(e)
    ensures Apply(k, b, e) == b
  {
  }

  lemma {:induction false} IdleAll(k: Keys, b: Book, ev: seq<Event>)
    requires forall i | 0 <= i < |ev| :: Idle(ev[i])
    ensures Run(k, b, ev) == b
    decreases |ev|
  {
    if ev != [] {
      IdleRun(k, b, ev[0]);
      hide Apply, Idle;
      IdleAll(k, b, ev[1..]);
    }
  }

  lemma {:induction false} RunTwo(k: Keys, b: Book, x: Event, y: Event)
    ensures Run(k, b, [x, y]) == Apply(k, Apply(k, b, x), y)
  {
    assert [x, y] == [x] + [y];
    hide Apply;
    RunPlus(k, b, [x], [y]);
    RunOne(k, b, x);
    RunOne(k, Apply(k, b, x), y);
  }

  lemma {:induction false} UnseenOne(k: Keys, b: Book, e: Event)
    requires View1(LEDGER, e) == []
    ensures Apply(k, b, e) == b
  {
    if e.Body? {
      if e.tag in LEDGER.edge { assert e.bytes == []; }
      NoBytes(k, b, e.tag);
    } else {
      IdleRun(k, b, e);
    }
  }

  lemma {:induction false} UnseenAll(k: Keys, b: Book, ev: seq<Event>)
    requires View(LEDGER, ev) == []
    ensures Run(k, b, ev) == b
    decreases |ev|
  {
    if ev != [] {
      UnseenOne(k, b, ev[0]);
      hide Apply, View1;
      UnseenAll(k, b, ev[1..]);
    }
  }

  /** A node none of whose callbacks reaches the book. */
  lemma {:induction false} MuteRun(k: Keys, b: Book, s: Schema, v: Val)
    requires Regular(s) && Typed(s, v) && |Encode(s, v)| < U32_SIZE && Mute(LEDGER, s)
    ensures Run(k, b, Replay(s, v)) == b
  {
    ReplayFrom(s, v);
    hide Regular, Typed, Encode, Mute, Replay;
    UnseenAll(k, b, Replay(s, v));
  }

  // ---------- Composite values ----------

  /** The last callbacks of a node. */
  lemma {:induction false} EndRun(k: Keys, b: Book, s: Schema, v: Val, b': Book)
    requires Typed(s, v) && !s.IsLeaf() && !s.Bytes? && Run(k, b, Within(s, v)) == b'
    ensures Run(k, b, Replay(s, v)) == OnEnd(k, b', s.tag)
  {
    var c, e := Chunk(s.tag, Encode(s, v)), End(s.tag);
    assert Replay(s, v) == Within(s, v) + [c, e];
    IdleRun(k, b', c);
    assert Apply(k, b', e) == OnEnd(k, b', s.tag);
    hide *;
    RunPlus(k, b, Within(s, v), [c, e]);
    RunTwo(k, b', c, e);
  }

  lemma {:induction false} Chain(k: Keys, b: Book, x: seq<Event>, y: seq<Event>, z: seq<Event>, b1: Book, b2: Book)
    requires Run(k, b, x) == b1 && Run(k, b1, y) == b2
    ensures Run(k, b, x + y + z) == Run(k, b2, z) && Run(k, b, x + y) == b2
  {
    hide *;
    RunPlus(k, b, x + y, z);
    RunPlus(k, b, x, y);
  }

  /** A table of three fields, field by field. */
  lemma {:induction false} ThreeRun(k: Keys, b: Book, s: Schema, v: Val, b1: Book, b2: Book, b3: Book, b4: Book, b5: Book)
    requires s.Table? && |s.fields| == 3 && Typed(s, v)
    requires Typed(s.fields[0], v.vals[0]) && Typed(s.fields[1], v.vals[1]) && Typed(s.fields[2], v.vals[2])
    requires s.fields[0].Array?
    requires Run(k, b, Replay(s.fields[0], v.vals[0])) == b1 && Run(k, b1, InitEv(s.fields[1])) == b2
    requires Run(k, b2, Replay(s.fields[1], v.vals[1])) == b3 && Run(k, b3, InitEv(s.fields[2])) == b4
    requires Run(k, b4, Replay(s.fields[2], v.vals[2])) == b5
    ensures Run(k, b, Replay(s, v)) == OnEnd(k, b5, s.tag)
  {
    var nums := Kept(s, v);
    W.ThreeKids(s, v);
    assert EnterEv(s, nums, 3) == [Offsets(s.tag, nums)];
    IdleAll(k, b, [Offsets(s.tag, nums)]);
    assert Run(k, b, Within(s, v)) == b5 by {
      hide *;
      ThreeChain(k, b, EnterEv(s, nums, 3), Replay(s.fields[0], v.vals[0]), InitEv(s.fields[1]), Replay(s.fields[1], v.vals[1]),
                 InitEv(s.fields[2]), Replay(s.fields[2], v.vals[2]), b1, b2, b3, b4, b5);
    }
    hide *;
    EndRun(k, b, s, v, b5);
  }

  lemma {:induction false} ThreeChain(k: Keys, b: Book, enter: seq<Event>, r0: seq<Event>, i1: seq<Event>, r1: seq<Event>,
                                      i2: seq<Event>, r2: seq<Event>, b1: Book, b2: Book, b3: Book, b4: Book, b5: Book)
    requires Run(k, b, enter) == b && Run(k, b, r0) == b1 && Run(k, b1, i1) == b2 && Run(k, b2, r1) == b3 && Run(k, b3, i2) == b4
    requires Run(k, b4, r2) == b5
    ensures Run(k, b, enter + (r0 + i1 + (r1 + i2 + r2))) == b5
  {
    hide *;
    RunPlus(k, b, enter, r0 + i1 + (r1 + i2 + r2));
    Chain(k, b, r0, i1, r1 + i2 + r2, b1, b2);
    Chain(k, b2, r1, i2, r2, b3, b4);
  }

  lemma {:induction false} ArrayRun(k: Keys, b: Book, s: Schema, v: Val)
    requires s.IsLeaf() && Typed(s, v)
    ensures Run(k, b, Replay(s, v)) == OnLeaf(k, b, s.tag, v.bytes)
  {
    RunOne(k, b, Leaf(s.tag, v.bytes));
    hide OnLeaf;
  }

  /** A byte string: its size, its bytes, its end. */
  lemma {:induction false} BytesRun(k: Keys, b: Book, t: Tag, bs: seq<u8>)
    requires |bs| + 4 < U32_SIZE
    ensures Run(k, b, Replay(Bytes(t), Blob(bs))) == OnEnd(k, OnBody(k, OnSize(k, b, t, |bs| + 4), t, bs), t)
  {
    var e := Size(t, |bs| + 4);
    var b1 := OnSize(k, b, t, |bs| + 4);
    SizeBodyEnd(k, b, t, |bs| + 4, bs);
    SizeBodyEnd(k, b1, t, 4, []);
    NoBytes(k, b1, t);
    BytesForm(t, bs);
    hide *;
    RunOne(k, b, e);
    if bs == [] {
      RunTwo(k, b, e, End(t));
    } else {
      RunPlus(k, b, [e], [Body(t, bs), End(t)]);
      RunTwo(k, b1, Body(t, bs), End(t));
      SizeBodyEnd(k, b1, t, 4, bs);
      SizeBodyEnd(k, OnBody(k, b1, t, bs), t, 4, []);
    }
  }

  lemma {:induction false} SizeBodyEnd(k: Keys, b: Book, t: Tag, size: u32, bs: seq<u8>)
    ensures Apply(k, b, Size(t, size)) == OnSize(k, b, t, size) && Apply(k, b, Body(t, bs)) == OnBody(k, b, t, bs)
    ensures Apply(k, b, End(t)) == OnEnd(k, b, t)
  {
    hide OnSize, OnBody, OnEnd;
  }

  lemma {:induction false} BytesForm(t: Tag, bs: seq<u8>)
    requires |bs| + 4 < U32_SIZE
    ensures Typed(Bytes(t), Blob(bs))
    ensures Replay(Bytes(t), Blob(bs)) == if bs == [] then [Size(t, |bs| + 4), End(t)] else [Size(t, |bs| + 4)] + [Body(t, bs), End(t)]
  {
    var e := Size(t, |bs| + 4);
    assert [e] + [] + [End(t)] == [e, End(t)] && [e] + [Body(t, bs)] + [End(t)] == [e] + [Body(t, bs), End(t)];
  }

  lemma {:induction false} NoBytes(k: Keys, b: Book, t: Tag)
    ensures OnBody(k, b, t, []) == b
  {
    DataPieces(b, [], []);
  }

  // ---------- Scripts ----------

  predicate ScriptShape(v: Val) {
    && v.Items? && |v.vals| == 3 && v.vals[0].Blob? && |v.vals[0].bytes| == 32 && v.vals[1].Blob? && |v.vals[1].bytes| == 1
    && v.vals[2].Blob?
  }

  lemma {:induction false} ScriptShaped(t: Tag, hash: Tag, kind: Tag, args: Tag, v: Val)
    requires Typed(Script(t, hash, kind, args), v)
    ensures ScriptShape(v) && |v.vals[2].bytes| + 4 <= |Encode(Script(t, hash, kind, args), v)|
    ensures Typed(Array(hash, 32), v.vals[0]) && Typed(Byte(kind), v.vals[1]) && Typed(Bytes(args), v.vals[2])
  {
    var s := Script(t, hash, kind, args);
    assert Typed(s.fields[0], v.vals[0]) && Typed(s.fields[1], v.vals[1]) && Typed(s.fields[2], v.vals[2]);
    KidSmall(s, v, 2);
  }

  /** A script whose node, code hash and arguments report to these tags. */
  function OverScript(k: Keys, b: Book, t: Tag, hash: Tag, args: Tag, v: Val): Book
    requires ScriptShape(v) && |v.vals[2].bytes| + 4 < U32_SIZE
  {
    var b1 := ScriptKind(k, OnLeaf(k, b, hash, v.vals[0].bytes), v.vals[1].bytes);
    var b2 := OnSize(k, OnStart(b1, args), args, |v.vals[2].bytes| + 4);
    OnEnd(k, OnEnd(k, OnBody(k, b2, args, v.vals[2].bytes), args), t)
  }

  lemma {:induction false} ScriptRun(k: Keys, b: Book, t: Tag, hash: Tag, args: Tag, v: Val)
    requires Typed(Script(t, hash, HashType, args), v) && ScriptShape(v) && |v.vals[2].bytes| + 4 < U32_SIZE
    ensures Run(k, b, Replay(Script(t, hash, HashType, args), v)) == OverScript(k, b, t, hash, args, v)
  {
    var b1 := OnLeaf(k, b, hash, v.vals[0].bytes);
    var b2 := ScriptKind(k, b1, v.vals[1].bytes);
    var b3 := OnStart(b2, args);
    var b4 := OnEnd(k, OnBody(k, OnSize(k, b3, args, |v.vals[2].bytes| + 4), args, v.vals[2].bytes), args);
    assert OverScript(k, b, t, hash, args, v) == OnEnd(k, b4, t) by {
      hide OnLeaf, OnStart, OnEnd, OnBody, OnSize, ScriptKind, Typed;
    }
    ScriptHead(k, b, t, hash, args, v, b1, b2);
    ScriptArgs(k, b2, t, hash, args, v, b3, b4);
    assert Script(t, hash, HashType, args).Table? && Script(t, hash, HashType, args).tag == t;
    hide *;
    ThreeRun(k, b, Script(t, hash, HashType, args), v, b1, b1, b2, b3, b4);
  }

  lemma {:induction false} ScriptHead(k: Keys, b: Book, t: Tag, hash: Tag, args: Tag, v: Val, b1: Book, b2: Book)
    requires Typed(Script(t, hash, HashType, args), v) && ScriptShape(v)
    requires b1 == OnLeaf(k, b, hash, v.vals[0].bytes) && b2 == ScriptKind(k, b1, v.vals[1].bytes)
    ensures var f := Script(t, hash, HashType, args).fields;
            && |f| == 3 && f[0].Array? && Typed(f[0], v.vals[0]) && Typed(f[1], v.vals[1])
            && Run(k, b, Replay(f[0], v.vals[0])) == b1 && Run(k, b1, InitEv(f[1])) == b1 && Run(k, b1, Replay(f[1], v.vals[1])) == b2
  {
    hide Run, Replay, OnLeaf, ScriptKind, DefaultLock, MultisigLock, DaoType;
    ScriptFields(t, hash, args);
    ScriptShaped(t, hash, HashType, args, v);
    NoKindInit(k, b1);
    KindLeaf(k, b1, v.vals[1].bytes);
    hide *;
    ArrayRun(k, b, Array(hash, 32), v.vals[0]);
    ArrayRun(k, b1, Byte(HashType), v.vals[1]);
  }

  lemma {:induction false} NoKindInit(k: Keys, b: Book)
    ensures Run(k, b, InitEv(Byte(HashType))) == b && Byte(HashType).IsLeaf()
  {
  }

  lemma {:induction false} ScriptFields(t: Tag, hash: Tag, args: Tag)
    ensures var f := Script(t, hash, HashType, args).fields; f == [Array(hash, 32), Byte(HashType), Bytes(args)] && f[0].IsLeaf()
  {
  }

  lemma {:induction false} KindLeaf(k: Keys, b: Book, bs: seq<u8>)
    ensures OnLeaf(k, b, HashType, bs) == ScriptKind(k, b, bs)
  {
  }

  lemma {:induction false} ScriptArgs(k: Keys, b: Book, t: Tag, hash: Tag, args: Tag, v: Val, b1: Book, b2: Book)
    requires Typed(Script(t, hash, HashType, args), v) && ScriptShape(v) && |v.vals[2].bytes| + 4 < U32_SIZE
    requires b1 == OnStart(b, args)
    requires b2 == OnEnd(k, OnBody(k, OnSize(k, b1, args, |v.vals[2].bytes| + 4), args, v.vals[2].bytes), args)
    ensures var f := Script(t, hash, HashType, args).fields;
            && |f| == 3 && Typed(f[2], v.vals[2]) && Run(k, b, InitEv(f[2])) == b1 && Run(k, b1, Replay(f[2], v.vals[2])) == b2
  {
    ScriptShaped(t, hash, HashType, args, v);
    BytesRun(k, b1, args, v.vals[2].bytes);
    assert InitEv(Bytes(args)) == [Start(args)] && v.vals[2] == Blob(v.vals[2].bytes);
    RunOne(k, b, Start(args));
    assert Apply(k, b, Start(args)) == b1;
    hide Run, Replay, OnStart, OnEnd, OnBody, OnSize, Apply, Typed;
  }

  // ---------- Cells ----------

  function TypeScript(): Schema {
    Script(Quiet, TypeHash, HashType, TypeArgs)
  }

  predicate SmallScript(v: Val) {
    ScriptShape(v) && |v.vals[2].bytes| + 4 < U32_SIZE
  }

  /** A cell: its capacity, its lock, and perhaps its type. */
  predicate CellShape(v: Val) {
    && v.Items? && |v.vals| == 3 && v.vals[0].Blob? && |v.vals[0].bytes| == 8 && SmallScript(v.vals[1])
    && (v.vals[2].None? || (v.vals[2].Some? && SmallScript(v.vals[2].val)))
  }

  lemma {:induction false} CellShaped(t: Tag, lock: Tag, args: Tag, v: Val)
    requires Typed(CellOutput(t, lock, args), v) && |Encode(CellOutput(t, lock, args), v)| < U32_SIZE
    ensures CellShape(v) && Typed(Array(Capacity, 8), v.vals[0]) && Typed(Script(lock, LockHash, HashType, args), v.vals[1])
    ensures Typed(Option(Quiet, TypeScript()), v.vals[2]) && (v.vals[2].Some? ==> Typed(TypeScript(), v.vals[2].val))
    ensures |Encode(Script(lock, LockHash, HashType, args), v.vals[1])| < U32_SIZE
    ensures |Encode(Option(Quiet, TypeScript()), v.vals[2])| < U32_SIZE
  {
    var s := CellOutput(t, lock, args);
    CellFields(t, lock, args);
    assert Typed(s.fields[0], v.vals[0]) && Typed(s.fields[1], v.vals[1]) && Typed(s.fields[2], v.vals[2]);
    CellKid(t, lock, args, v, 1);
    CellKid(t, lock, args, v, 2);
    hide Encode, CellOutput;
    ScriptShaped(lock, LockHash, HashType, args, v.vals[1]);
    if v.vals[2].Some? { TypeShaped(v.vals[2]); }
  }

  lemma {:induction false} CellFields(t: Tag, lock: Tag, args: Tag)
    ensures CellOutput(t, lock, args).Table? && CellOutput(t, lock, args).tag == t
    ensures CellOutput(t, lock, args).fields
         == [Array(Capacity, 8), Script(lock, LockHash, HashType, args), Option(Quiet, TypeScript())]
  {
  }

  lemma {:induction false} CellKid(t: Tag, lock: Tag, args: Tag, v: Val, i: nat)
    requires Typed(CellOutput(t, lock, args), v) && i < 3
    ensures v.Items? && |v.vals| == 3 && Typed(CellOutput(t, lock, args).fields[i], v.vals[i])
    ensures |Encode(CellOutput(t, lock, args).fields[i], v.vals[i])| <= |Encode(CellOutput(t, lock, args), v)|
  {
    KidSmall(CellOutput(t, lock, args), v, i);
    assert Kid(CellOutput(t, lock, args), i) == CellOutput(t, lock, args).fields[i];
  }

  lemma {:induction false} TypeShaped(v: Val)
    requires Typed(Option(Quiet, TypeScript()), v) && v.Some? && |Encode(Option(Quiet, TypeScript()), v)| < U32_SIZE
    ensures Typed(TypeScript(), v.val) && SmallScript(v.val)
  {
    assert Encode(Option(Quiet, TypeScript()), v) == Encode(TypeScript(), v.val);
    hide Encode;
    ScriptShaped(Quiet, TypeHash, HashType, TypeArgs, v.val);
  }

  function OverType(k: Keys, b: Book, v: Val): Book
    requires v.None? || (v.Some? && SmallScript(v.val))
  {
    if v.None? then b else OverScript(k, b, Quiet, TypeHash, TypeArgs, v.val)
  }

  /** A cell whose lock reports to `lock` and `args`. */
  function OverCell(k: Keys, b: Book, lock: Tag, args: Tag, v: Val): Book
    requires CellShape(v)
  {
    OverType(k, OverScript(k, CellCapacity(b, v.vals[0].bytes), lock, LockHash, args, v.vals[1]), v.vals[2])
  }

  lemma {:induction false} TypeRun(k: Keys, b: Book, v: Val)
    requires Typed(Option(Quiet, TypeScript()), v) && |Encode(Option(Quiet, TypeScript()), v)| < U32_SIZE
    requires v.None? || (v.Some? && SmallScript(v.val))
    ensures Run(k, b, Replay(Option(Quiet, TypeScript()), v)) == OverType(k, b, v)
  {
    var s := Option(Quiet, TypeScript());
    if v.Some? {
      TypeShaped(v);
      OptionWithin(v);
      ScriptRun(k, b, Quiet, TypeHash, TypeArgs, v.val);
    } else {
      assert Within(s, v) == [] && Run(k, b, []) == b;
    }
    hide OverScript, Run, Within, Replay, Encode, Typed, ScriptShape;
    EndRun(k, b, s, v, OverType(k, b, v));
  }

  lemma {:induction false} OptionWithin(v: Val)
    requires Typed(Option(Quiet, TypeScript()), v) && v.Some? && Typed(TypeScript(), v.val)
    ensures Within(Option(Quiet, TypeScript()), v) == Replay(TypeScript(), v.val)
  {
    var s := Option(Quiet, TypeScript());
    assert ReplayKids(s, [v.val], 1) == [];
    assert ReplayKids(s, [v.val], 0) == Replay(TypeScript(), v.val) + BetweenEv(s, 0) + ReplayKids(s, [v.val], 1);
    hide Replay, ReplayKids;
  }

  lemma {:induction false} CellRun(k: Keys, b: Book, t: Tag, lock: Tag, args: Tag, v: Val)
    requires Typed(CellOutput(t, lock, args), v) && |Encode(CellOutput(t, lock, args), v)| < U32_SIZE && CellShape(v)
    requires lock == LockScript || lock == Quiet
    ensures Run(k, b, Replay(CellOutput(t, lock, args), v)) == OnEnd(k, OverCell(k, b, lock, args, v), t)
  {
    hide Run, Replay, Typed, Encode, CellOutput, Script, TypeScript, OverScript, OverType, OverCell, CellCapacity, InitEv, OnEnd;
    var s := CellOutput(t, lock, args);
    CellFields(t, lock, args);
    CellShaped(t, lock, args, v);
    var b1 := CellCapacity(b, v.vals[0].bytes);
    var b2 := OverScript(k, b1, lock, LockHash, args, v.vals[1]);
    var b3 := OverType(k, b2, v.vals[2]);
    OverCellIs(k, b, lock, args, v, b1, b2, b3);
    CapacityRun(k, b, v.vals[0]);
    InitsRun(k, b1, b2, lock, args);
    assert ScriptShape(v.vals[1]) && |v.vals[1].vals[2].bytes| + 4 < U32_SIZE;
    assert v.vals[2].None? || (v.vals[2].Some? && SmallScript(v.vals[2].val));
    hide *;
    ScriptRun(k, b1, lock, LockHash, args, v.vals[1]);
    TypeRun(k, b2, v.vals[2]);
    ThreeRun(k, b, s, v, b1, b1, b2, b2, b3);
  }

  lemma {:induction false} OverCellIs(k: Keys, b: Book, lock: Tag, args: Tag, v: Val, b1: Book, b2: Book, b3: Book)
    requires CellShape(v) && b1 == CellCapacity(b, v.vals[0].bytes) && b2 == OverScript(k, b1, lock, LockHash, args, v.vals[1])
    requires b3 == OverType(k, b2, v.vals[2])
    ensures OverCell(k, b, lock, args, v) == b3
  {
    hide CellCapacity, OverScript, OverType;
  }

  lemma {:induction false} CapacityRun(k: Keys, b: Book, v: Val)
    requires Typed(Array(Capacity, 8), v)
    ensures v.Blob? && Run(k, b, Replay(Array(Capacity, 8), v)) == CellCapacity(b, v.bytes)
  {
    ArrayRun(k, b, Array(Capacity, 8), v);
  }

  lemma {:induction false} InitsRun(k: Keys, b1: Book, b2: Book, lock: Tag, args: Tag)
    requires lock == LockScript || lock == Quiet
    ensures Run(k, b1, InitEv(Script(lock, LockHash, HashType, args))) == b1
    ensures Run(k, b2, InitEv(Option(Quiet, TypeScript()))) == b2
  {
    assert InitEv(Script(lock, LockHash, HashType, args)) == [Start(lock)];
    assert InitEv(Option(Quiet, TypeScript())) == [Start(Quiet), Start(Quiet)];
    RunOne(k, b1, Start(lock));
    IdleAll(k, b2, [Start(Quiet), Start(Quiet)]);
  }
}
