/** Exactly when the callbacks flag a transaction, from its cells, phase by phase. */
module Acceptance {
  import opened Words
  import opened Encoding
  import opened Transaction
  import opened Schema
  import opened Ledger
  import opened LedgerCells
  import opened LedgerRuns
  import opened LedgerTotal
  import opened Spending
  import opened Inputs
  import opened Conservation
  import opened Grouping
  import opened Payments
  import opened Sources
  import opened Accounting
  import opened Operations

  // ---------- One input ----------

  /** A spent cell, with its data, that is not flagged by itself. */
  predicate Known(k: Keys, c: Val, d: seq<u8>)
    requires CellShape(c)
  {
    && !OddLock(k, c) && !OddType(k, c)
    && (if IsDao(c) then |d| == 8 else d == [] || k.allow)
  }

  /** Nor by what came before it: the operation is its own, and if it opens a source of ours that is
      the only one. */
  predicate Welcome(k: Keys, b: Book, c: Val, d: seq<u8>)
    requires CellShape(c) && |ArgsOf(c)| <= ARG_MAX
  {
    && Known(k, c, d)
    && (Key(c) == b.src.last || Foreign(k, c) || b.shown.signedAt == 0)
    && (IsDao(c) ==> b.shown.tag == NOT_SET || b.shown.tag == DaoOp(HasNonzero(d)))
  }

  lemma {:induction false} LockFlags(b: Book)
    requires !b.shown.unsafe && b.cell.active
    ensures !LockEnd(b).shown.unsafe <==> b.src.last == b.arg[..20] || b.cell.nonequal || b.shown.signedAt == 0
    ensures LockEnd(b).shown.tag == b.shown.tag
  {
  }

  lemma {:induction false} LockStays(b: Book)
    ensures b.shown.unsafe ==> LockEnd(b).shown.unsafe
  {
  }

  /** Up to the end of the lock. */
  lemma {:induction false} LockedFlags(k: Keys, b: Book, c: Val)
    requires CellShape(c) && |ArgsOf(c)| <= ARG_MAX && !b.shown.unsafe
    ensures var r := Locked(k, b, c);
            && (!r.shown.unsafe <==> !OddLock(k, c) && (Key(c) == b.src.last || Foreign(k, c) || b.shown.signedAt == 0))
            && r.shown.tag == b.shown.tag
  {
    var x := AtLock(k, SetActive(b, true), c);
    LockStays(x);
    if !x.shown.unsafe { LockFlags(x); }
    hide OddLock, Amount, IsDao, IsMultisig, Padded, Foreign, CellShape, ArgsOf, LockEnd;
  }

  /** The data of the spent cell. */
  lemma {:induction false} DataFlags(k: Keys, b: Book)
    requires b.cell.active
    ensures var c := b.cell;
            !InputData(k, b).shown.unsafe <==>
              && !b.shown.unsafe
              && if c.isDao then c.dataSize == 8 && (b.shown.tag == NOT_SET || b.shown.tag == DaoOp(c.nonzero))
                 else c.dataSize == 0 || k.allow
  {
    DaoIs(b);
    hide DaoInput, Add64;
  }

  lemma {:induction false} SpendFlags(k: Keys, b: Book, c: Val, d: seq<u8>)
    requires CellShape(c) && |ArgsOf(c)| <= ARG_MAX && |d| + 4 < U32_SIZE && Tidy(b) && !b.shown.unsafe
    ensures !Spend(k, b, c, d).shown.unsafe <==> Welcome(k, b, c, d)
  {
    var y := Flag(Locked(k, b, c).(cell := WithData(k, c, d)), OddType(k, c));
    SpendIs(k, b, c, d);
    LockedFlags(k, b, c);
    Conservation.CellFields(k, c, d);
    assert WithData(k, c, d).dataSize == 0 <==> d == [] by { hide CellShape, IsDao, IsMultisig, Foreign, Amount, ArgsOf, HasNonzero; }
    assert y.cell == WithData(k, c, d) && y.shown.tag == b.shown.tag by { hide Locked, WithData, OddType; }
    DataFlags(k, y);
    hide InputData, Locked, WithData, OddType, OddLock, Spend, CellShape, IsDao, HasNonzero, Amount, Foreign, IsMultisig, ArgsOf, Key, DaoOp;
  }

  lemma {:induction false} InputFlags(k: Keys, b: Book, v: Val)
    requires InputShape(v) && InRange(v) && b == InputStart(b) && !b.shown.unsafe
    ensures !NextInput(k, b, v).shown.unsafe <==> Welcome(k, b, SpentCell(v), SpentDatum(v))
  {
    hide *;
    var b0 := Seeking(b, v);
    SeekingKeeps(b, v);
    SeekKeeps(b, v);
    NextIsSpend(k, b, v);
    SpendFlags(k, b0, SpentCell(v), SpentDatum(v));
    NextKeeps(Spend(k, b0, SpentCell(v), SpentDatum(v)));
    WelcomeSame(k, b0, b, SpentCell(v), SpentDatum(v));
  }

  lemma {:induction false} WelcomeSame(k: Keys, a: Book, b: Book, c: Val, d: seq<u8>)
    requires CellShape(c) && |ArgsOf(c)| <= ARG_MAX && a.src.last == b.src.last && a.shown == b.shown
    ensures Welcome(k, a, c, d) == Welcome(k, b, c, d)
  {
    hide Known, Key, Foreign, IsDao, HasNonzero, DaoOp, CellShape, ArgsOf;
  }

  // ---------- All inputs ----------

  /** How many sources from `j` on are ours. */
  ghost function Ours(k: Keys, vals: seq<Val>, j: nat, last: Hash20): nat
    requires AllInRange(vals) && j <= |vals|
    decreases |vals| - j
  {
    if j == |vals| then 0
    else
      var c := SpentCell(vals[j]);
      (if Key(c) != last && !Foreign(k, c) then 1 else 0) + Ours(k, vals, j + 1, Key(c))
  }

  /** The inputs from `j` on are not flagged and leave the operation `op`. */
  ghost predicate InputsFine(k: Keys, vals: seq<Val>, j: nat, tag: Op, op: Op)
    requires AllInRange(vals) && j <= |vals|
  {
    && (forall i | j <= i < |vals| :: Known(k, SpentCell(vals[i]), SpentDatum(vals[i])))
    && (forall i | j <= i < |vals| && IsDao(SpentCell(vals[i])) :: DaoOp(HasNonzero(SpentDatum(vals[i]))) == op)
    && (tag == op || (tag == NOT_SET && exists i | j <= i < |vals| :: IsDao(SpentCell(vals[i]))))
  }

  function Count(taken: bool): nat {
    if taken then 1 else 0
  }

  /** What an unflagged input does to the sources. */
  lemma {:induction false} SourceMoves(k: Keys, b: Book, v: Val)
    requires InputShape(v) && InRange(v) && b == InputStart(b) && b.spent.distinct + 1 < U32_SIZE
    ensures var r, c := NextInput(k, b, v), SpentCell(v);
            !r.shown.unsafe ==>
              if Key(c) == b.src.last then
                r.src.last == b.src.last && r.spent.distinct == b.spent.distinct && r.shown.signedAt == b.shown.signedAt
              else
                && r.src.last == Key(c) && r.spent.distinct == b.spent.distinct + 1
                && if Foreign(k, c) then r.shown.signedAt == b.shown.signedAt else b.shown.signedAt == 0 && r.shown.signedAt == r.spent.distinct
  {
    hide *;
    InputEffect(k, b, v);
    SeekKeeps(b, v);
    LockedSources(k, Seeking(b, v), SpentCell(v));
    AddOne(b.spent.distinct);
  }

  lemma {:induction false} FineStep(k: Keys, vals: seq<Val>, j: nat, tag: Op, tag1: Op, op: Op)
    requires AllInRange(vals) && j < |vals|
    requires var c, d := SpentCell(vals[j]), SpentDatum(vals[j]); if IsDao(c) then tag1 == DaoOp(HasNonzero(d)) && (tag == NOT_SET || tag == tag1) else tag1 == tag
    ensures InputsFine(k, vals, j, tag, op) <==> Known(k, SpentCell(vals[j]), SpentDatum(vals[j])) && InputsFine(k, vals, j + 1, tag1, op)
  {
    hide Known, IsDao, HasNonzero, InputShape, InRange, SpentCell, SpentDatum, DaoOp;
    DaoIsSet(HasNonzero(SpentDatum(vals[j])));
    if InputsFine(k, vals, j, tag, op) && !IsDao(SpentCell(vals[j])) && tag != op {
      var i :| j <= i < |vals| && IsDao(SpentCell(vals[i]));
      assert i > j;
    }
  }

  lemma {:induction false} FineFails(k: Keys, b: Book, vals: seq<Val>, j: nat, op: Op)
    requires AllInRange(vals) && j < |vals| && InputsFine(k, vals, j, b.shown.tag, op)
    requires Ours(k, vals, j, b.src.last) + Count(b.shown.signedAt != 0) <= 1
    ensures InputShape(vals[j]) && InRange(vals[j]) && Welcome(k, b, SpentCell(vals[j]), SpentDatum(vals[j]))
  {
    hide Known, IsDao, HasNonzero, InputShape, InRange, SpentCell, SpentDatum, DaoOp, Foreign, Key;
  }

  /** The inputs from `j` on raise no flag, and leave this operation, exactly if the cells they spend say
      so and there is at most one source of ours. */
  lemma {:induction false} InputsAccepted(k: Keys, b: Book, vals: seq<Val>, j: nat, op: Op)
    requires AllInRange(vals) && InputShapes(vals) && j <= |vals| && b == InputStart(b) && !b.shown.unsafe
    requires b.spent.distinct + (|vals| - j) < U32_SIZE
    ensures var r := AllInputs(k, b, vals, j);
            !r.shown.unsafe && r.shown.tag == op
            <==> InputsFine(k, vals, j, b.shown.tag, op) && Ours(k, vals, j, b.src.last) + Count(b.shown.signedAt != 0) <= 1
    decreases |vals| - j
  {
    hide *;
    if j == |vals| {
      InputsDone(k, b, vals);
      FineNothing(k, b, vals, op);
    } else {
      RangeAt(vals, j);
      var b1, c, d := NextInput(k, b, vals[j]), SpentCell(vals[j]), SpentDatum(vals[j]);
      InputEffect(k, b, vals[j]);
      InputFlags(k, b, vals[j]);
      InputsStep(k, b, vals, j);
      InputsHeld(k, b1, vals, j + 1);
      if b1.shown.unsafe {
        if InputsFine(k, vals, j, b.shown.tag, op) && Ours(k, vals, j, b.src.last) + Count(b.shown.signedAt != 0) <= 1 { FineFails(k, b, vals, j, op); }
      } else {
        ChargedTag(k, b, c, d, b1);
        SourceMoves(k, b, vals[j]);
        OursStep(k, b, vals, j, b1);
        FineStep(k, vals, j, b.shown.tag, b1.shown.tag, op);
        WelcomeKnown(k, b, c, d);
        InputsAccepted(k, b1, vals, j + 1, op);
      }
    }
  }

  lemma {:induction false} WelcomeKnown(k: Keys, b: Book, c: Val, d: seq<u8>)
    requires CellShape(c) && |ArgsOf(c)| <= ARG_MAX && Welcome(k, b, c, d)
    ensures Known(k, c, d)
  {
    hide Known, Key, Foreign, IsDao, HasNonzero, DaoOp;
  }

  lemma {:induction false} OursStep(k: Keys, b: Book, vals: seq<Val>, j: nat, b1: Book)
    requires AllInRange(vals) && j < |vals| && b.spent.distinct + (|vals| - j) < U32_SIZE
    requires var c := SpentCell(vals[j]);
             if Key(c) == b.src.last then
               b1.src.last == b.src.last && b1.spent.distinct == b.spent.distinct && b1.shown.signedAt == b.shown.signedAt
             else
               && b1.src.last == Key(c) && b1.spent.distinct == b.spent.distinct + 1
               && if Foreign(k, c) then b1.shown.signedAt == b.shown.signedAt else b.shown.signedAt == 0 && b1.shown.signedAt == b1.spent.distinct
    ensures Ours(k, vals, j, b.src.last) + Count(b.shown.signedAt != 0) == Ours(k, vals, j + 1, b1.src.last) + Count(b1.shown.signedAt != 0)
    ensures b1.spent.distinct + (|vals| - (j + 1)) < U32_SIZE && b.spent.distinct + 1 < U32_SIZE
  {
    hide Key, Foreign, InputShape, InRange, SpentCell;
  }

  lemma {:induction false} FineNothing(k: Keys, b: Book, vals: seq<Val>, op: Op)
    requires AllInRange(vals)
    ensures InputsFine(k, vals, |vals|, b.shown.tag, op) <==> b.shown.tag == op
    ensures Ours(k, vals, |vals|, b.src.last) + Count(b.shown.signedAt != 0) <= 1
  {
  }

  // ---------- One output ----------

  /** The output raises no flag by itself. */
  predicate KnownOutput(k: Keys, c: Val)
    requires CellShape(c)
  {
    !OddLock(k, c) && !OddType(k, c) && (IsDao(c) ==> !GoesOut(k, c))
  }

  predicate Pays(b: Book) {
    !b.cell.isDao && (b.cell.nonequal || b.cell.isMultisig)
  }

  /** The end of an output, when it raises a flag, and the operation and destinations it leaves. */
  lemma {:induction false} EndFlags(b: Book)
    requires Consistent(b) && !b.shown.unsafe
    ensures var r, opens := OutputEnd(b), Pays(b) && Opens(b);
            && (!r.shown.unsafe <==>
                 && (b.cell.isDao ==> !b.cell.nonequal && !b.cell.isMultisig)
                 && (opens ==> (b.shown.tag == NOT_SET || b.shown.tag == MULTI_OUTPUT) && |b.sent.entries| < MAX_OUTPUTS))
            && (!r.shown.unsafe ==>
                 && r.shown.tag == (if opens then MULTI_OUTPUT else b.shown.tag)
                 && r.sent.entries == if Pays(b) then Push(b.sent.entries, Payment(b)) else b.sent.entries)
  {
    PayIs(b);
    hide Pay, TotalOf, Push, Opens, Payment, Add64, ShiftBit;
  }

  lemma {:induction false} EndStays(b: Book)
    requires b.shown.unsafe
    ensures OutputEnd(b).shown.unsafe
  {
    PaySettles(b);
    hide Pay, Add64, ShiftBit;
  }

  /** The next payment opens another destination. */
  predicate OpensNext(es: seq<Entry>, x: Entry) {
    es != [] && !Alike(es[|es| - 1], x)
  }

  lemma {:induction false} OutputFlags(k: Keys, b: Book, c: Val)
    requires CellShape(c) && Plain(c) && Opened(b) && Consistent(b) && |ArgsOf(c)| <= ARG_MAX && !b.shown.unsafe
    ensures var r := OutputEnd(OverCell(k, b, Quiet, LockArgsOut, c));
            var pays := !IsDao(c) && GoesOut(k, c);
            var opens := pays && OpensNext(b.sent.entries, Destined(c));
            && (!r.shown.unsafe <==>
                 KnownOutput(k, c) && (opens ==> (b.shown.tag == NOT_SET || b.shown.tag == MULTI_OUTPUT) && |b.sent.entries| < MAX_OUTPUTS))
            && (!r.shown.unsafe ==>
                 && r.shown.tag == (if opens then MULTI_OUTPUT else b.shown.tag)
                 && r.sent.entries == if pays then Push(b.sent.entries, Destined(c)) else b.sent.entries)
  {
    hide *;
    FilledIs(k, b, c);
    OddOrNot(k, b, c, OverCell(k, b, Quiet, LockArgsOut, c));
  }

  lemma {:induction false} FilledIs(k: Keys, b: Book, c: Val)
    requires CellShape(c) && Plain(c) && Opened(b) && Consistent(b) && |ArgsOf(c)| <= ARG_MAX && !b.shown.unsafe
    ensures var x := OverCell(k, b, Quiet, LockArgsOut, c);
            && Consistent(x) && x.sent == b.sent && x.shown.tag == b.shown.tag
            && (x.shown.unsafe <==> OddLock(k, c) || OddType(k, c))
            && Opens(x) == OpensNext(b.sent.entries, Destined(c)) && (Pays(x) <==> !IsDao(c) && GoesOut(k, c)) && Payment(x) == Destined(c)
            && x.cell.isDao == IsDao(c) && (x.cell.nonequal || x.cell.isMultisig <==> GoesOut(k, c))
  {
    var odd := OddLock(k, c) || OddType(k, c);
    OutputIs(k, b, c);
    FilledKeeps(k, b, c, odd);
    GoesOutIs(k, b, c);
    var x := Flag(Filled(k, b, c), odd);
    assert OverCell(k, b, Quiet, LockArgsOut, c) == x by { hide OverCell, OddLock, OddType, OutputCell, Padded; }
    FlaggedIs(k, b, c, odd);
    hide OverCell, OutputCell, OddLock, OddType, Filled, Flag, Destined, IsDao, GoesOut, IsMultisig, Elsewhere, Consistent, Payment, Alike, CellShape, Plain, Opened, ArgsOf;
  }

  lemma {:induction false} FlaggedIs(k: Keys, b: Book, c: Val, odd: bool)
    requires CellShape(c) && |ArgsOf(c)| <= ARG_MAX && !b.shown.unsafe
    ensures Flag(Filled(k, b, c), odd).shown.unsafe <==> odd
  {
    hide OutputCell, Padded;
  }

  lemma {:induction false} OddOrNot(k: Keys, b: Book, c: Val, x: Book)
    requires CellShape(c) && |ArgsOf(c)| <= ARG_MAX && Consistent(x) && x.sent == b.sent && x.shown.tag == b.shown.tag
    requires x.shown.unsafe <==> OddLock(k, c) || OddType(k, c)
    requires Opens(x) == OpensNext(b.sent.entries, Destined(c)) && (Pays(x) <==> !IsDao(c) && GoesOut(k, c)) && Payment(x) == Destined(c)
    requires x.cell.isDao == IsDao(c) && (x.cell.nonequal || x.cell.isMultisig <==> GoesOut(k, c))
    ensures var r := OutputEnd(x);
            var pays := !IsDao(c) && GoesOut(k, c);
            var opens := pays && OpensNext(b.sent.entries, Destined(c));
            && (!r.shown.unsafe <==>
                 KnownOutput(k, c) && (opens ==> (b.shown.tag == NOT_SET || b.shown.tag == MULTI_OUTPUT) && |b.sent.entries| < MAX_OUTPUTS))
            && (!r.shown.unsafe ==>
                 && r.shown.tag == (if opens then MULTI_OUTPUT else b.shown.tag)
                 && r.sent.entries == if pays then Push(b.sent.entries, Destined(c)) else b.sent.entries)
  {
    if x.shown.unsafe { EndStays(x); } else { EndFlags(x); }
    hide OutputEnd, Opens, OpensNext, Consistent, Payment, Destined, Push, OddLock, OddType, IsDao, GoesOut, CellShape, ArgsOf;
  }

  // ---------- All outputs ----------

  /** The outputs from `j` on raise no flag by themselves. */
  predicate OutputsFine(k: Keys, vals: seq<Val>, j: nat)
    requires AllPlain(vals)
  {
    forall i | j <= i < |vals| :: KnownOutput(k, vals[i])
  }

  /** So many destinations fit, and go with the operation. */
  predicate GroupsFine(n: nat, tag: Op, op: Op) {
    && n <= MAX_OUTPUTS
    && if n >= 2 then op == MULTI_OUTPUT && (tag == NOT_SET || tag == MULTI_OUTPUT) else op == tag
  }

  lemma {:induction false} PushGrows(es: seq<Entry>, xs: seq<Entry>)
    ensures |PushAll(es, xs)| >= |es|
    decreases |xs|
  {
    if xs != [] { PushGrows(Push(es, xs[0]), xs[1..]); }
  }

  lemma {:induction false} PushLength(es: seq<Entry>, x: Entry)
    ensures |Push(es, x)| == if es == [] || OpensNext(es, x) then |es| + 1 else |es|
  {
    hide Alike;
  }

  lemma {:induction false} PaidStep(k: Keys, es: seq<Entry>, vals: seq<Val>, j: nat)
    requires AllPlain(vals) && j < |vals|
    ensures CellShape(vals[j]) && Plain(vals[j]) && |ArgsOf(vals[j])| <= ARG_MAX
    ensures PushAll(es, Paid(k, vals, j))
         == PushAll(if !IsDao(vals[j]) && GoesOut(k, vals[j]) then Push(es, Destined(vals[j])) else es, Paid(k, vals, j + 1))
    ensures OutputsFine(k, vals, j) <==> KnownOutput(k, vals[j]) && OutputsFine(k, vals, j + 1)
  {
    hide GoesOut, IsDao, IsMultisig, ArgsOf, CellShape, Destined, Push, KnownOutput, PushAll, Plain;
    PlainAt(vals, j);
    var c, rest := vals[j], Paid(k, vals, j + 1);
    PushFirst(es, Destined(c), rest);
    assert [] + rest == rest;
  }

  lemma {:induction false} PlainAt(vals: seq<Val>, j: nat)
    requires AllPlain(vals) && j < |vals|
    ensures CellShape(vals[j]) && Plain(vals[j]) && |ArgsOf(vals[j])| <= ARG_MAX
  {
    hide CellShape, IsMultisig, ArgsOf;
  }

  lemma {:induction false} PushFirst(es: seq<Entry>, x: Entry, rest: seq<Entry>)
    ensures PushAll(es, [x] + rest) == PushAll(Push(es, x), rest)
  {
    assert ([x] + rest)[1..] == rest;
    hide Push;
  }

  lemma {:induction false} OutputsAccepted(k: Keys, b: Book, vals: seq<Val>, j: nat, op: Op)
    requires AllPlain(vals) && Fit(vals) && CellShapes(vals) && j <= |vals| && Awaiting(b, j) && !b.shown.unsafe
    requires |b.sent.entries| >= 2 ==> b.shown.tag == MULTI_OUTPUT
    ensures var r := AllOutputs(k, b, vals, j);
            !r.shown.unsafe && r.shown.tag == op
            <==> OutputsFine(k, vals, j) && GroupsFine(|PushAll(b.sent.entries, Paid(k, vals, j))|, b.shown.tag, op)
    decreases |vals| - j
  {
    hide *;
    if j == |vals| {
      OutputsDone(k, b, vals);
      PaidDone(k, b.sent.entries, vals);
      NothingFine(k, b, vals, op);
    } else {
      PaidStep(k, b.sent.entries, vals, j);
      OutputsStep(k, b, vals, j);
      var b1 := NextOutput(k, b, vals[j], j);
      NextEffect(k, b, vals[j], j);
      NextFlags(k, b, vals[j], j);
      PushLength(b.sent.entries, Destined(vals[j]));
      OutputsGone(k, b1, vals, j + 1);
      AwaitingIs(b, j);
      AwaitingIs(b1, j + 1);
      if b1.shown.unsafe {
        TooMany(k, b, vals, j, op);
      } else {
        PushGrows(b1.sent.entries, Paid(k, vals, j + 1));
        GroupsStep(k, b, vals[j], b1, |PushAll(b1.sent.entries, Paid(k, vals, j + 1))|, op);
        OutputsAccepted(k, b1, vals, j + 1, op);
      }
    }
  }

  lemma {:induction false} NothingFine(k: Keys, b: Book, vals: seq<Val>, op: Op)
    requires AllPlain(vals) && Awaiting(b, |vals|) && (|b.sent.entries| >= 2 ==> b.shown.tag == MULTI_OUTPUT)
    ensures OutputsFine(k, vals, |vals|) && (GroupsFine(|b.sent.entries|, b.shown.tag, op) <==> b.shown.tag == op)
  {
    hide TotalOf;
  }

  lemma {:induction false} NextFlags(k: Keys, b: Book, c: Val, j: nat)
    requires CellShape(c) && Plain(c) && Awaiting(b, j) && |ArgsOf(c)| <= ARG_MAX && !b.shown.unsafe
    ensures var r := NextOutput(k, b, c, j);
            var pays := !IsDao(c) && GoesOut(k, c);
            var opens := pays && OpensNext(b.sent.entries, Destined(c));
            && (!r.shown.unsafe <==>
                 KnownOutput(k, c) && (opens ==> (b.shown.tag == NOT_SET || b.shown.tag == MULTI_OUTPUT) && |b.sent.entries| < MAX_OUTPUTS))
            && (!r.shown.unsafe ==>
                 && r.shown.tag == (if opens then MULTI_OUTPUT else b.shown.tag)
                 && r.sent.entries == if pays then Push(b.sent.entries, Destined(c)) else b.sent.entries)
  {
    var x := OutputEnd(OverCell(k, b, Quiet, LockArgsOut, c));
    assert Opened(b) && Consistent(b) && NextOutput(k, b, c, j) == OutputStart(x, j + 1) by { hide OutputEnd, OverCell, OutputStart, Opened, Consistent; }
    assert OutputStart(x, j + 1).shown == x.shown && OutputStart(x, j + 1).sent.entries == x.sent.entries;
    hide *;
    OutputFlags(k, b, c);
  }

  /** A payment that is refused leaves too many destinations, or some that do not go with the operation. */
  lemma {:induction false} TooMany(k: Keys, b: Book, vals: seq<Val>, j: nat, op: Op)
    requires AllPlain(vals) && j < |vals| && CellShape(vals[j]) && |ArgsOf(vals[j])| <= ARG_MAX && Consistent(b)
    requires var c := vals[j];
             !(KnownOutput(k, c) && (!IsDao(c) && GoesOut(k, c) && OpensNext(b.sent.entries, Destined(c)) ==>
                 (b.shown.tag == NOT_SET || b.shown.tag == MULTI_OUTPUT) && |b.sent.entries| < MAX_OUTPUTS))
    ensures !(OutputsFine(k, vals, j) && GroupsFine(|PushAll(b.sent.entries, Paid(k, vals, j))|, b.shown.tag, op))
  {
    PaidStep(k, b.sent.entries, vals, j);
    PushLength(b.sent.entries, Destined(vals[j]));
    PushGrows(Push(b.sent.entries, Destined(vals[j])), Paid(k, vals, j + 1));
    hide GoesOut, IsDao, IsMultisig, ArgsOf, CellShape, Destined, Push, KnownOutput, PushAll, Paid, OutputsFine, TotalOf, Alike;
  }

  lemma {:induction false} GroupsStep(k: Keys, b: Book, c: Val, b1: Book, n: nat, op: Op)
    requires CellShape(c) && |ArgsOf(c)| <= ARG_MAX && (|b.sent.entries| >= 2 ==> b.shown.tag == MULTI_OUTPUT)
    requires var pays := !IsDao(c) && GoesOut(k, c);
             var opens := pays && OpensNext(b.sent.entries, Destined(c));
             && (opens ==> b.shown.tag == NOT_SET || b.shown.tag == MULTI_OUTPUT)
             && b1.shown.tag == (if opens then MULTI_OUTPUT else b.shown.tag)
             && b1.sent.entries == if pays then Push(b.sent.entries, Destined(c)) else b.sent.entries
    requires n >= |b1.sent.entries|
    ensures |b1.sent.entries| >= 2 ==> b1.shown.tag == MULTI_OUTPUT
    ensures GroupsFine(n, b.shown.tag, op) <==> GroupsFine(n, b1.shown.tag, op)
  {
    PushLength(b.sent.entries, Destined(c));
    hide GoesOut, IsDao, Destined, Push, CellShape, ArgsOf, Alike;
  }

  // ---------- Data of the outputs ----------

  /** The operation of a DAO output, by its data. */
  function DatumOp(nonzero: bool): Op {
    if nonzero then PREPARE else DEPOSIT
  }

  /** Some item from `j` to `i` is not all zeros. The device does not forget that between two items. */
  predicate Seen(vals: seq<Val>, j: nat, i: nat)
    requires Blobs(vals) && i < |vals|
  {
    exists n | j <= n <= i :: HasNonzero(vals[n].bytes)
  }

  /** The items of data from `j` on raise no flag and leave the operation `op`. */
  ghost predicate DataFine(k: Keys, vals: seq<Val>, j: nat, mask: set<nat>, nonzero: bool, tag: Op, op: Op)
    requires Blobs(vals)
  {
    && (forall i | j <= i < |vals| :: if i in mask then |vals[i].bytes| == 8 else vals[i].bytes == [] || k.allow)
    && (forall i | j <= i < |vals| && i in mask :: DatumOp(nonzero || Seen(vals, j, i)) == op)
    && (tag == op || (tag == NOT_SET && exists i | j <= i < |vals| :: i in mask))
  }

  lemma {:induction false} DatumFlags(k: Keys, b: Book, d: seq<u8>)
    requires |d| + 4 < U32_SIZE && !b.shown.unsafe
    ensures var r, nonzero := OverDatum(k, b, OutputDatum, Blob(d)), b.cell.nonzero || (b.cell.active && HasNonzero(d));
            && r.cell.nonzero == nonzero
            && (!r.shown.unsafe <==>
                 if b.cell.isDao then |d| == 8 && (b.shown.tag == NOT_SET || b.shown.tag == DatumOp(nonzero)) else d == [] || k.allow)
            && (!r.shown.unsafe ==> r.shown.tag == if b.cell.isDao then DatumOp(nonzero) else b.shown.tag)
  {
    ReadDatum(b, d);
    EndDatum(k, DataPiece(DataSize(b, |d| + 4), d));
    hide HasNonzero, DataPiece, DataSize, OutputData;
  }

  lemma {:induction false} ReadDatum(b: Book, d: seq<u8>)
    requires |d| + 4 < U32_SIZE
    ensures var r := DataPiece(DataSize(b, |d| + 4), d);
            && r.shown == b.shown && r.cell.isDao == b.cell.isDao && r.cell.nonzero == (b.cell.nonzero || (b.cell.active && HasNonzero(d)))
            && (r.cell.dataSize == 8 <==> |d| == 8) && (r.cell.dataSize == 0 <==> d == [])
  {
    hide HasNonzero;
  }

  lemma {:induction false} EndDatum(k: Keys, b: Book)
    requires !b.shown.unsafe
    ensures var r, c := OutputData(k, b), b.cell;
            && r.cell == c
            && (!r.shown.unsafe <==>
                 if c.isDao then c.dataSize == 8 && (b.shown.tag == NOT_SET || b.shown.tag == DatumOp(c.nonzero)) else c.dataSize == 0 || k.allow)
            && (!r.shown.unsafe ==> r.shown.tag == if c.isDao then DatumOp(c.nonzero) else b.shown.tag)
  {
  }

  lemma {:induction false} SeenStep(vals: seq<Val>, j: nat, i: nat)
    requires Blobs(vals) && j <= i < |vals|
    ensures Seen(vals, j, i) <==> HasNonzero(vals[j].bytes) || (i > j && Seen(vals, j + 1, i))
  {
    hide HasNonzero;
    if Seen(vals, j, i) {
      var n :| j <= n <= i && HasNonzero(vals[n].bytes);
      if n > j { assert j + 1 <= n <= i && HasNonzero(vals[n].bytes); }
    }
  }

  lemma {:induction false} DataFineStep(k: Keys, vals: seq<Val>, j: nat, mask: set<nat>, nonzero: bool, nonzero1: bool, tag: Op, tag1: Op, op: Op)
    requires Blobs(vals) && j < |vals| && (mask != {} ==> nonzero1 == (nonzero || HasNonzero(vals[j].bytes)))
    requires tag1 == (if j in mask then DatumOp(nonzero1) else tag)
    requires if j in mask then |vals[j].bytes| == 8 && (tag == NOT_SET || tag == tag1) else vals[j].bytes == [] || k.allow
    ensures DataFine(k, vals, j, mask, nonzero, tag, op) <==> DataFine(k, vals, j + 1, mask, nonzero1, tag1, op)
  {
    forall i | j <= i < |vals| && i in mask ensures (nonzero || Seen(vals, j, i)) == (nonzero1 || (i > j && Seen(vals, j + 1, i))) {
      SeenStep(vals, j, i);
      hide HasNonzero, Seen;
    }
    hide HasNonzero, Seen;
    DatumOpSet(nonzero1);
    hide DatumOp;
  }

  lemma {:induction false} DatumOpSet(nonzero: bool)
    ensures DatumOp(nonzero) != NOT_SET
  {
  }

  lemma {:induction false} DataFineFails(k: Keys, vals: seq<Val>, j: nat, mask: set<nat>, nonzero: bool, tag: Op, op: Op)
    requires Blobs(vals) && j < |vals| && DataFine(k, vals, j, mask, nonzero, tag, op)
    ensures if j in mask then |vals[j].bytes| == 8 && (tag == NOT_SET || tag == DatumOp(nonzero || HasNonzero(vals[j].bytes)))
            else vals[j].bytes == [] || k.allow
  {
    if j in mask { SeenStep(vals, j, j); }
    hide HasNonzero, Seen, DatumOp;
  }

  lemma {:induction false} DataFineDone(k: Keys, vals: seq<Val>, mask: set<nat>, nonzero: bool, tag: Op, op: Op)
    requires Blobs(vals)
    ensures DataFine(k, vals, |vals|, mask, nonzero, tag, op) <==> tag == op
  {
  }

  lemma {:induction false} DataAccepted(k: Keys, b: Book, vals: seq<Val>, j: nat, op: Op)
    requires Blobs(vals) && j <= |vals| && !b.shown.unsafe && (j < |vals| ==> b.cell.isDao == (j in b.sent.mask))
    requires b.cell.active || b.sent.mask == {}
    ensures var r := AllData(k, b, vals, j);
            !r.shown.unsafe && r.shown.tag == op <==> DataFine(k, vals, j, b.sent.mask, b.cell.nonzero, b.shown.tag, op)
    decreases |vals| - j
  {
    hide *;
    if j == |vals| {
      DataDone(k, b, vals);
      DataFineDone(k, vals, b.sent.mask, b.cell.nonzero, b.shown.tag, op);
    } else {
      DataStep(k, b, vals, j);
      var d := vals[j].bytes;
      var x := OverDatum(k, b, OutputDatum, vals[j]);
      var b1 := DatumStart(x, j + 1);
      OutputDatumIs(k, b, d);
      DatumFlags(k, b, d);
      DatumStartKeeps(x, j + 1);
      DataKeeps(k, b1, vals, j + 1);
      if b1.shown.unsafe {
        if DataFine(k, vals, j, b.sent.mask, b.cell.nonzero, b.shown.tag, op) {
          DataFineFails(k, vals, j, b.sent.mask, b.cell.nonzero, b.shown.tag, op);
        }
      } else {
        DataFineStep(k, vals, j, b.sent.mask, b.cell.nonzero, b1.cell.nonzero, b.shown.tag, b1.shown.tag, op);
        DataAccepted(k, b1, vals, j + 1, op);
      }
    }
  }
}
