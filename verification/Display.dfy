/** What is shown for a transaction, and exactly when it is: everything from its cells. */
module Display {
  import opened Words
  import opened Encoding
  import opened Transaction
  import opened Schema
  import opened Ledger
  import opened LedgerCells
  import opened LedgerRuns
  import opened LedgerTotal
  import opened Spending
  import opened Inputs
  import opened Conservation
  import opened Grouping
  import opened Payments
  import opened Sources
  import opened Accounting
  import opened Operations
  import opened Totals
  import opened Acceptance

  // ---------- What the inputs leave behind ----------

  /** A plain multisig cell is spent. */
  ghost predicate AnyMultisig(vals: seq<Val>, j: nat)
    requires AllInRange(vals)
  {
    exists i | j <= i < |vals| :: !IsDao(SpentCell(vals[i])) && IsMultisig(SpentCell(vals[i]))
  }

  /** A plain cell with data is spent. */
  ghost predicate AnyDatum(vals: seq<Val>, j: nat)
    requires AllInRange(vals)
  {
    exists i | j <= i < |vals| :: !IsDao(SpentCell(vals[i])) && SpentDatum(vals[i]) != []
  }

  /** The owner of the last DAO cell from `j` on, or the one before. */
  ghost function OwnerIn(vals: seq<Val>, j: nat, owner: Hash20): Hash20
    requires AllInRange(vals) && j <= |vals|
    decreases |vals| - j
  {
    if j == |vals| then owner
    else OwnerIn(vals, j + 1, if IsDao(SpentCell(vals[j])) then Key(SpentCell(vals[j])) else owner)
  }

  /** The number of the first source of ours from `j` on, when `n` have been counted; 0 if there is none. */
  ghost function OursAt(k: Keys, vals: seq<Val>, j: nat, last: Hash20, n: nat): nat
    requires AllInRange(vals) && j <= |vals|
    decreases |vals| - j
  {
    if j == |vals| then 0
    else
      var c := SpentCell(vals[j]);
      if Key(c) == last then OursAt(k, vals, j + 1, last, n)
      else if Foreign(k, c) then OursAt(k, vals, j + 1, Key(c), n + 1)
      else n + 1
  }

  /** No amount has been decided on. */
  predicate Untold(b: Book) {
    b.shown.amountFst == b.shown.amountSnd == b.shown.daoAmount == b.shown.fee == b.shown.ofAll == 0
  }

  lemma {:induction false} DataTold(k: Keys, b: Book)
    requires b.cell.active && !InputData(k, b).shown.unsafe
    ensures var r := InputData(k, b);
            && r.shown.contract == (b.shown.contract || (!b.cell.isDao && b.cell.dataSize > 0))
            && r.owner == if b.cell.isDao then b.arg[..20] else b.owner
  {
    DaoIs(b);
    hide DaoInput, Add64;
  }

  lemma {:induction false} LockTold(b: Book)
    ensures LockEnd(b).shown.contract == b.shown.contract && LockEnd(b).owner == b.owner && LockEnd(b).arg == b.arg
  {
  }

  lemma {:induction false} SpendTold(k: Keys, b: Book, c: Val, d: seq<u8>)
    requires CellShape(c) && |ArgsOf(c)| <= ARG_MAX && |d| + 4 < U32_SIZE && Tidy(b) && !Spend(k, b, c, d).shown.unsafe
    ensures var r := Spend(k, b, c, d);
            && r.shown.contract == (b.shown.contract || (!IsDao(c) && d != []))
            && r.owner == if IsDao(c) then Key(c) else b.owner
  {
    var x := AtLock(k, SetActive(b, true), c);
    var y := Flag(Locked(k, b, c).(cell := WithData(k, c, d)), OddType(k, c));
    SpendIs(k, b, c, d);
    LockTold(x);
    assert x.shown.contract == b.shown.contract && x.owner == b.owner && x.arg == Padded(ArgsOf(c)) by { hide OddLock, InputCell, Padded, ArgsOf, CellShape; }
    assert y.cell == WithData(k, c, d) && y.arg == x.arg && y.owner == b.owner && y.shown.contract == b.shown.contract by { hide WithData, OddType, AtLock, LockEnd; }
    Conservation.CellFields(k, c, d);
    assert WithData(k, c, d).dataSize == 0 <==> d == [] by { hide CellShape, IsDao, IsMultisig, Foreign, Amount, ArgsOf, HasNonzero; }
    DataTold(k, y);
    hide InputData, LockEnd, AtLock, WithData, OddType, Spend, CellShape, IsDao, HasNonzero, Amount, Foreign, IsMultisig, ArgsOf, SetActive, Padded, Locked;
  }

  /** One input, all it changes beside the amounts. */
  lemma {:induction false} InputTold(k: Keys, b: Book, v: Val)
    requires InputShape(v) && InRange(v) && b == InputStart(b) && !NextInput(k, b, v).shown.unsafe
    ensures var r, c := NextInput(k, b, v), SpentCell(v);
            && r.shown.contract == (b.shown.contract || (!IsDao(c) && SpentDatum(v) != []))
            && r.owner == (if IsDao(c) then Key(c) else b.owner)
            && r.spent.multisig == (b.spent.multisig || (!IsDao(c) && IsMultisig(c)))
            && (Untold(b) ==> Untold(r))
  {
    hide *;
    var b0 := Seeking(b, v);
    SeekingKeeps(b, v);
    SeekingOwner(b, v);
    NextIsSpend(k, b, v);
    StartOwner(Spend(k, b0, SpentCell(v), SpentDatum(v)));
    SpendTold(k, b0, SpentCell(v), SpentDatum(v));
    InputEffect(k, b, v);
    ChargedTold(k, b, SpentCell(v), SpentDatum(v), NextInput(k, b, v));
  }

  lemma {:induction false} SeekingOwner(b: Book, v: Val)
    requires InputShape(v)
    ensures Seeking(b, v).owner == b.owner
  {
    hide InputShape, IndexOf;
  }

  lemma {:induction false} StartOwner(b: Book)
    ensures InputStart(b).owner == b.owner && InputStart(b).shown == b.shown
  {
  }

  lemma {:induction false} ChargedTold(k: Keys, b: Book, c: Val, d: seq<u8>, r: Book)
    requires CellShape(c) && Charged(k, b, c, d, r)
    ensures r.spent.multisig == (b.spent.multisig || (!IsDao(c) && IsMultisig(c))) && (Untold(b) ==> Untold(r))
  {
    hide IsDao, HasNonzero, Amount, Foreign, IsMultisig, CellShape, Add64;
  }

  /** What the inputs from `j` on leave behind beside the amounts. */
  ghost predicate InputsTold(k: Keys, b: Book, vals: seq<Val>, j: nat, r: Book)
    requires AllInRange(vals) && j <= |vals|
  {
    && r.spent.distinct == b.spent.distinct + |Changes(KeysFrom(vals, j), b.src.last)|
    && (r.shown.signedAt != 0 <==> Ours(k, vals, j, b.src.last) + Count(b.shown.signedAt != 0) > 0)
    && r.shown.signedAt == (if b.shown.signedAt != 0 then b.shown.signedAt else OursAt(k, vals, j, b.src.last, b.spent.distinct))
    && r.shown.contract == (b.shown.contract || AnyDatum(vals, j))
    && r.owner == OwnerIn(vals, j, b.owner)
    && r.spent.multisig == (b.spent.multisig || AnyMultisig(vals, j))
    && (Untold(b) ==> Untold(r))
  }

  lemma {:induction false} ToldDone(k: Keys, b: Book, vals: seq<Val>)
    requires AllInRange(vals)
    ensures InputsTold(k, b, vals, |vals|, b)
  {
  }

  lemma {:induction false} KeysStep(vals: seq<Val>, j: nat, last: Hash20)
    requires AllInRange(vals) && j < |vals|
    ensures InputShape(vals[j]) && InRange(vals[j])
    ensures var key, rest := Key(SpentCell(vals[j])), KeysFrom(vals, j + 1);
            |Changes(KeysFrom(vals, j), last)| == if key == last then |Changes(rest, key)| else 1 + |Changes(rest, key)|
  {
    ChangesStep(Key(SpentCell(vals[j])), KeysFrom(vals, j + 1), last);
    hide InputShape, InRange, Key, Changes, SpentCell;
  }

  /** What one more input in front changes. */
  lemma {:induction false} AnyStep(k: Keys, vals: seq<Val>, j: nat, b: Book, b1: Book)
    requires AllInRange(vals) && j < |vals|
    ensures InputShape(vals[j]) && InRange(vals[j])
    ensures var c := SpentCell(vals[j]);
            && (AnyMultisig(vals, j) <==> (!IsDao(c) && IsMultisig(c)) || AnyMultisig(vals, j + 1))
            && (AnyDatum(vals, j) <==> (!IsDao(c) && SpentDatum(vals[j]) != []) || AnyDatum(vals, j + 1))
            && OwnerIn(vals, j, b.owner) == OwnerIn(vals, j + 1, if IsDao(c) then Key(c) else b.owner)
            && (b1.src.last == Key(c) && b1.spent.distinct == b.spent.distinct + (if Key(c) == b.src.last then 0 else 1) ==>
                 OursAt(k, vals, j, b.src.last, b.spent.distinct)
                 == if Key(c) == b.src.last || Foreign(k, c) then OursAt(k, vals, j + 1, b1.src.last, b1.spent.distinct) else b1.spent.distinct)
  {
    hide InputShape, InRange, Key, SpentCell, SpentDatum, IsDao, IsMultisig, Foreign;
  }

  lemma {:induction false} ToldStep(k: Keys, b: Book, vals: seq<Val>, j: nat, b1: Book, r: Book)
    requires AllInRange(vals) && j < |vals| && InputShape(vals[j]) && InRange(vals[j])
    requires InputsTold(k, b1, vals, j + 1, r)
    requires var c := SpentCell(vals[j]);
             && b1.shown.contract == (b.shown.contract || (!IsDao(c) && SpentDatum(vals[j]) != []))
             && b1.owner == (if IsDao(c) then Key(c) else b.owner)
             && b1.spent.multisig == (b.spent.multisig || (!IsDao(c) && IsMultisig(c)))
             && (Untold(b) ==> Untold(b1))
             && b1.src.last == Key(c) && b1.spent.distinct == b.spent.distinct + (if Key(c) == b.src.last then 0 else 1)
    requires Ours(k, vals, j, b.src.last) + Count(b.shown.signedAt != 0) == Ours(k, vals, j + 1, b1.src.last) + Count(b1.shown.signedAt != 0)
    requires var c := SpentCell(vals[j]);
             if Key(c) == b.src.last || Foreign(k, c) then b1.shown.signedAt == b.shown.signedAt
             else b.shown.signedAt == 0 && b1.shown.signedAt == b1.spent.distinct
    ensures InputsTold(k, b, vals, j, r)
  {
    hide OursAt, AnyMultisig, AnyDatum, OwnerIn, Foreign;
    KeysStep(vals, j, b.src.last);
    AnyStep(k, vals, j, b, b1);
    hide InputShape, InRange, Key, Changes, SpentCell, SpentDatum, IsDao, IsMultisig, KeysFrom, Ours, Untold;
  }

  lemma {:induction false} InputsLeave(k: Keys, b: Book, vals: seq<Val>, j: nat)
    requires AllInRange(vals) && InputShapes(vals) && j <= |vals| && b == InputStart(b)
    requires b.spent.distinct + (|vals| - j) < U32_SIZE
    ensures var r := AllInputs(k, b, vals, j); !r.shown.unsafe ==> InputsTold(k, b, vals, j, r)
    decreases |vals| - j
  {
    hide *;
    if j == |vals| {
      InputsDone(k, b, vals);
      ToldDone(k, b, vals);
    } else {
      RangeAt(vals, j);
      var b1 := NextInput(k, b, vals[j]);
      InputEffect(k, b, vals[j]);
      InputsStep(k, b, vals, j);
      InputsHeld(k, b1, vals, j + 1);
      if !AllInputs(k, b, vals, j).shown.unsafe {
        SourceMoves(k, b, vals[j]);
        OursStep(k, b, vals, j, b1);
        InputTold(k, b, vals[j]);
        InputsLeave(k, b1, vals, j + 1);
        ToldStep(k, b, vals, j, b1, AllInputs(k, b, vals, j));
      }
    }
  }

  // ---------- What the outputs leave behind ----------

  /** The owner of the last DAO output from `j` on, or the one before. */
  function OwnerOut(vals: seq<Val>, j: nat, owner: Hash20): Hash20
    requires Fit(vals) && j <= |vals|
    decreases |vals| - j
  {
    if j == |vals| then owner else OwnerOut(vals, j + 1, if IsDao(vals[j]) then Key(vals[j]) else owner)
  }

  lemma {:induction false} EndOwner(b: Book)
    requires Consistent(b)
    ensures OutputEnd(b).owner == (if b.cell.isDao then b.arg[..20] else b.owner) && (Untold(b) ==> Untold(OutputEnd(b)))
    ensures OutputEnd(b).shown.contract == b.shown.contract && OutputEnd(b).shown.signedAt == b.shown.signedAt
    ensures OutputEnd(b).sent.isSelf == b.sent.isSelf
  {
    PayOwner(b);
    hide Pay, Add64, ShiftBit;
  }

  lemma {:induction false} PayOwner(b: Book)
    requires Consistent(b)
    ensures var r := Pay(b);
            && r.owner == b.owner && (Untold(b) ==> Untold(r)) && r.shown.contract == b.shown.contract && r.shown.signedAt == b.shown.signedAt
            && r.sent.isSelf == b.sent.isSelf
  {
    PayIs(b);
    hide Pay, Push, Opens, Payment, TotalOf, Add64;
  }

  lemma {:induction false} NextOwner(k: Keys, b: Book, c: Val, j: nat)
    requires CellShape(c) && Awaiting(b, j) && |ArgsOf(c)| <= ARG_MAX
    ensures var r := NextOutput(k, b, c, j);
            && r.owner == (if IsDao(c) then Key(c) else b.owner) && (Untold(b) ==> Untold(r))
            && r.shown.contract == b.shown.contract && r.shown.signedAt == b.shown.signedAt && r.sent.isSelf == b.sent.isSelf
  {
    var odd := OddLock(k, c) || OddType(k, c);
    var x := Flag(Filled(k, b, c), odd);
    assert Opened(b) by { hide Opened, Consistent; }
    OutputIs(k, b, c);
    assert OverCell(k, b, Quiet, LockArgsOut, c) == x by { hide OverCell, OddLock, OddType, OutputCell, Padded; }
    assert Consistent(b) by { hide Opened, Consistent; }
    FilledKeeps(k, b, c, odd);
    FilledOwner(k, b, c, odd);
    EndOwner(x);
    StartsKeep(OutputEnd(x), j + 1);
    hide OverCell, OutputEnd, OutputStart, Filled, Flag, OddLock, OddType, IsDao, ArgsOf, CellShape, Untold, Key, Consistent, Destined, Payment, Joined, Elsewhere, IsMultisig, Amount;
  }

  lemma {:induction false} FilledOwner(k: Keys, b: Book, c: Val, odd: bool)
    requires CellShape(c) && |ArgsOf(c)| <= ARG_MAX
    ensures var x := Flag(Filled(k, b, c), odd);
            && x.cell.isDao == IsDao(c) && x.arg[..20] == Key(c) && x.owner == b.owner && (Untold(b) ==> Untold(x))
            && x.shown.contract == b.shown.contract && x.shown.signedAt == b.shown.signedAt && x.sent.isSelf == b.sent.isSelf
  {
    hide Elsewhere, IsDao, IsMultisig, Amount, ArgsOf, CellShape, Padded;
  }

  lemma {:induction false} StartsKeep(b: Book, j: nat)
    ensures OutputStart(b, j).owner == b.owner && OutputStart(b, j).shown == b.shown && OutputStart(b, j).sent.isSelf == b.sent.isSelf
  {
  }

  lemma {:induction false} OutputsLeave(k: Keys, b: Book, vals: seq<Val>, j: nat)
    requires Fit(vals) && CellShapes(vals) && j <= |vals| && Awaiting(b, j)
    ensures var r := AllOutputs(k, b, vals, j);
            && r.owner == OwnerOut(vals, j, b.owner) && (Untold(b) ==> Untold(r))
            && r.shown.contract == b.shown.contract && r.shown.signedAt == b.shown.signedAt && r.sent.isSelf == b.sent.isSelf
    decreases |vals| - j
  {
    hide *;
    if j == |vals| {
      OutputsDone(k, b, vals);
      OwnerDone(vals, b.owner);
    } else {
      OutputsStep(k, b, vals, j);
      NextEffect(k, b, vals[j], j);
      NextOwner(k, b, vals[j], j);
      OwnerStep(vals, j, b.owner);
      OutputsLeave(k, NextOutput(k, b, vals[j], j), vals, j + 1);
    }
  }

  lemma {:induction false} OwnerDone(vals: seq<Val>, owner: Hash20)
    requires Fit(vals)
    ensures OwnerOut(vals, |vals|, owner) == owner
  {
  }

  lemma {:induction false} OwnerStep(vals: seq<Val>, j: nat, owner: Hash20)
    requires Fit(vals) && j < |vals|
    ensures CellShape(vals[j]) && |ArgsOf(vals[j])| <= ARG_MAX
    ensures OwnerOut(vals, j, owner) == OwnerOut(vals, j + 1, if IsDao(vals[j]) then Key(vals[j]) else owner)
  {
    hide IsDao, Key, CellShape, ArgsOf;
  }

  // ---------- Phase by phase ----------

  lemma {:induction false} InputsVerdict(k: Keys, v: Val, op: Op)
    requires Ordinary(v) && RawForm(v) && AllInRange(InsOf(v))
    ensures var r := AfterInputs(k, v);
            !r.shown.unsafe && r.shown.tag == op <==> InputsFine(k, InsOf(v), 0, NOT_SET, op) && Ours(k, InsOf(v), 0, Zero(20)) <= 1
  {
    hide *;
    FewInputs(v);
    Fresh();
    AfterInputsIs(k, v);
    InputsBookIs(k, InsOf(v));
    FinishKeeps(InputsBook(k, InsOf(v)));
    var b := InputStart(InputsStart(Cleared()));
    CountNone();
    if InsOf(v) == [] {
      NoneFine(k, InsOf(v), op);
    } else {
      InputsAccepted(k, b, InsOf(v), 0, op);
    }
  }

  lemma {:induction false} CountNone()
    ensures Count(false) == 0
  {
  }

  lemma {:induction false} NoneFine(k: Keys, vals: seq<Val>, op: Op)
    requires vals == [] && InputShapes(vals) && AllInRange(vals)
    ensures var r := InputsBook(k, vals);
            !r.shown.unsafe && r.shown.tag == op <==> InputsFine(k, vals, 0, NOT_SET, op) && Ours(k, vals, 0, Zero(20)) <= 1
  {
  }

  lemma {:induction false} OutputsVerdict(k: Keys, v: Val, op: Op)
    requires Ordinary(v) && RawForm(v) && AllPlain(OutsOf(v)) && !AfterInputs(k, v).shown.unsafe
    ensures var r := BeforeOutputsEnd(k, v);
            !r.shown.unsafe && r.shown.tag == op
            <==> OutputsFine(k, OutsOf(v), 0) && GroupsFine(|Compress(Paid(k, OutsOf(v), 0))|, AfterInputs(k, v).shown.tag, op)
  {
    hide *;
    OrdinaryIs(v);
    BeforeEndIs(k, v);
    InputsPhase(k, v);
    var a := AfterInputs(k, v);
    NothingGone(a);
    StartKeeps(a, 0);
    NothingIs();
    if OutsOf(v) == [] {
      NoGroups(k, OutsOf(v), a.shown.tag, op);
    } else {
      OutputsAccepted(k, OutputStart(a, 0), OutsOf(v), 0, op);
      AllPushed(Paid(k, OutsOf(v), 0));
    }
  }

  lemma {:induction false} AllPushed(xs: seq<Entry>)
    ensures PushAll([], xs) == Compress(xs)
  {
    PushAllCompress([], xs);
    assert Compress([]) == [] && [] + xs == xs;
    hide Compress, PushAll;
  }

  lemma {:induction false} NoGroups(k: Keys, vals: seq<Val>, tag: Op, op: Op)
    requires vals == [] && AllPlain(vals)
    ensures OutputsFine(k, vals, 0) && (GroupsFine(|Compress(Paid(k, vals, 0))|, tag, op) <==> tag == op)
  {
    NoPayments(k, vals);
  }

  lemma {:induction false} EndUnsafe(k: Keys, b: Book)
    ensures OutputsEnd(k, b).shown.unsafe == b.shown.unsafe
  {
  }

  lemma {:induction false} DataVerdict(k: Keys, v: Val, op: Op)
    requires Ordinary(v) && RawForm(v) && AllPlain(OutsOf(v)) && !BeforeOutputsEnd(k, v).shown.unsafe
    ensures var c, r := BeforeOutputsEnd(k, v), AfterData(k, v);
            !r.shown.unsafe && r.shown.tag == op <==> DataFine(k, DatasOf(v), 0, c.sent.mask, false, c.shown.tag, op)
  {
    hide *;
    var c, e := BeforeOutputsEnd(k, v), OutputsEnd(k, BeforeOutputsEnd(k, v));
    AfterDataIs(k, v);
    EndTag(k, c);
    EndUnsafe(k, c);
    DatumStartKeeps(e, 0);
    ActiveOrEmpty(k, v);
    if DatasOf(v) == [] {
      DataFineDone(k, DatasOf(v), c.sent.mask, false, c.shown.tag, op);
    } else {
      DataAccepted(k, DatumStart(e, 0), DatasOf(v), 0, op);
      DataFineEmpty(k, DatasOf(v), c.sent.mask, c.cell.nonzero, c.shown.tag, op);
    }
  }

  /** Data is looked at when it matters. */
  lemma {:induction false} ActiveOrEmpty(k: Keys, v: Val)
    requires Ordinary(v) && RawForm(v) && AllPlain(OutsOf(v)) && !BeforeOutputsEnd(k, v).shown.unsafe
    ensures var c := BeforeOutputsEnd(k, v); (c.cell.active && !c.cell.nonzero) || c.sent.mask == {}
  {
    hide *;
    MaskSays(k, v);
    ActiveBlank();
    if OutsOf(v) == [] {
      OrdinaryIs(v);
      InputsPhase(k, v);
      BeforeEndIs(k, v);
      NothingIs();
    }
  }

  lemma {:induction false} ActiveBlank()
    ensures BLANK_CELL.(active := true).active && !BLANK_CELL.(active := true).nonzero
  {
  }

  lemma {:induction false} DataFineEmpty(k: Keys, vals: seq<Val>, mask: set<nat>, nonzero: bool, tag: Op, op: Op)
    requires Blobs(vals) && (mask == {} || !nonzero)
    ensures DataFine(k, vals, 0, mask, nonzero, tag, op) <==> DataFine(k, vals, 0, mask, false, tag, op)
  {
    hide Seen, DatumOp, Blobs;
  }

  // ---------- What the data leaves behind ----------

  /** An item from `j` on that is not taken for that of a DAO cell is not empty. */
  ghost predicate AnyItem(vals: seq<Val>, j: nat, mask: set<nat>)
    requires Blobs(vals)
  {
    exists i | j <= i < |vals| :: i !in mask && vals[i].bytes != []
  }

  lemma {:induction false} DatumTold(k: Keys, b: Book, d: seq<u8>)
    requires |d| + 4 < U32_SIZE
    ensures var r := OverDatum(k, b, OutputDatum, Blob(d));
            && (!r.shown.unsafe ==> r.shown.contract == (b.shown.contract || (!b.cell.isDao && d != [])))
            && r.owner == b.owner && (Untold(b) ==> Untold(r)) && r.shown.signedAt == b.shown.signedAt
  {
    ReadTold(b, d);
    EndTold(k, DataPiece(DataSize(b, |d| + 4), d));
    StillUntold(OverDatum(k, b, OutputDatum, Blob(d)), b);
    hide HasNonzero, DataPiece, DataSize, OutputData, Untold;
  }

  lemma {:induction false} ReadTold(b: Book, d: seq<u8>)
    requires |d| + 4 < U32_SIZE
    ensures var r := DataPiece(DataSize(b, |d| + 4), d);
            r.shown == b.shown && r.cell.isDao == b.cell.isDao && r.owner == b.owner && (r.cell.dataSize > 0 <==> d != [])
  {
    hide HasNonzero;
  }

  lemma {:induction false} EndTold(k: Keys, b: Book)
    ensures var r, c := OutputData(k, b), b.cell;
            && r == b.(shown := b.shown.(unsafe := r.shown.unsafe, tag := r.shown.tag, contract := r.shown.contract))
            && (!r.shown.unsafe ==> r.shown.contract == (b.shown.contract || (!c.isDao && c.dataSize > 0)))
  {
    BecomeIs(b, if b.cell.nonzero then PREPARE else DEPOSIT);
    hide Become;
  }

  lemma {:induction false} BecomeIs(b: Book, op: Op)
    ensures Become(b, op) == b.(shown := b.shown.(unsafe := Become(b, op).shown.unsafe, tag := Become(b, op).shown.tag))
  {
  }

  lemma {:induction false} StillUntold(a: Book, b: Book)
    requires a.shown == b.shown.(unsafe := a.shown.unsafe, tag := a.shown.tag, contract := a.shown.contract)
    ensures (Untold(b) ==> Untold(a)) && a.shown.signedAt == b.shown.signedAt
  {
  }

  lemma {:induction false} DataLeaves(k: Keys, b: Book, vals: seq<Val>, j: nat)
    requires Blobs(vals) && j <= |vals| && (j < |vals| ==> b.cell.isDao == (j in b.sent.mask))
    ensures var r := AllData(k, b, vals, j);
            && (!r.shown.unsafe ==> r.shown.contract == (b.shown.contract || AnyItem(vals, j, b.sent.mask)))
            && r.owner == b.owner && (Untold(b) ==> Untold(r)) && r.shown.signedAt == b.shown.signedAt
    decreases |vals| - j
  {
    hide *;
    if j == |vals| {
      DataDone(k, b, vals);
      NoItem(vals, b.sent.mask);
    } else {
      DataStep(k, b, vals, j);
      var x := OverDatum(k, b, OutputDatum, vals[j]);
      OutputDatumIs(k, b, vals[j].bytes);
      DatumTold(k, b, vals[j].bytes);
      DatumStartKeeps(x, j + 1);
      DatumOwner(x, j + 1);
      ItemStep(vals, j, b.sent.mask);
      DataKeeps(k, DatumStart(x, j + 1), vals, j + 1);
      DataLeaves(k, DatumStart(x, j + 1), vals, j + 1);
    }
  }

  lemma {:induction false} DatumOwner(b: Book, j: nat)
    ensures DatumStart(b, j).owner == b.owner && (Untold(b) ==> Untold(DatumStart(b, j)))
  {
  }

  lemma {:induction false} NoItem(vals: seq<Val>, mask: set<nat>)
    requires Blobs(vals)
    ensures !AnyItem(vals, |vals|, mask)
  {
  }

  lemma {:induction false} ItemStep(vals: seq<Val>, j: nat, mask: set<nat>)
    requires Blobs(vals) && j < |vals|
    ensures AnyItem(vals, j, mask) <==> (j !in mask && vals[j].bytes != []) || AnyItem(vals, j + 1, mask)
  {
    hide Blobs;
  }

  // ---------- When a transaction is shown ----------

  /** How many destinations there are. */
  function Groups(k: Keys, vals: seq<Val>): nat
    requires AllPlain(vals)
  {
    |Compress(Paid(k, vals, 0))|
  }

  /** How many sources the inputs come from. */
  ghost function SourceCount(vals: seq<Val>): nat
    requires AllInRange(vals)
  {
    |Changes(KeysFrom(vals, 0), Zero(20))|
  }

  /** No cell is flagged by itself, at most one source is ours, and the destinations fit. */
  ghost predicate Cellwise(k: Keys, v: Val)
    requires RawForm(v) && AllInRange(InsOf(v)) && AllPlain(OutsOf(v))
  {
    var (ins, outs, datas) := (InsOf(v), OutsOf(v), DatasOf(v));
    && (forall i | 0 <= i < |ins| :: Known(k, SpentCell(ins[i]), SpentDatum(ins[i]))) && Ours(k, ins, 0, Zero(20)) <= 1
    && (forall i | 0 <= i < |outs| :: KnownOutput(k, outs[i])) && Groups(k, outs) <= MAX_OUTPUTS
    && (forall i | 0 <= i < |datas| :: if Noted(outs, 0, i) then |datas[i].bytes| == 8 else datas[i].bytes == [] || k.allow)
  }

  /** A DAO cell is spent. */
  ghost predicate AnyDao(ins: seq<Val>)
    requires AllInRange(ins)
  {
    exists i | 0 <= i < |ins| :: IsDao(SpentCell(ins[i]))
  }

  /** A data item is taken for that of a DAO cell. */
  predicate AnyNoted(outs: seq<Val>, datas: seq<Val>)
    requires AllPlain(outs)
  {
    exists i | 0 <= i < |datas| :: Noted(outs, 0, i)
  }

  /** Everything that asks for an operation asks for this one; without any, it is a transfer. */
  ghost predicate Asked(k: Keys, v: Val, op: Op)
    requires RawForm(v) && AllInRange(InsOf(v)) && AllPlain(OutsOf(v))
  {
    var (ins, outs, datas) := (InsOf(v), OutsOf(v), DatasOf(v));
    && (forall i | 0 <= i < |ins| && IsDao(SpentCell(ins[i])) :: DaoOp(HasNonzero(SpentDatum(ins[i]))) == op)
    && (Groups(k, outs) >= 2 ==> op == MULTI_OUTPUT)
    && (forall i | 0 <= i < |datas| && Noted(outs, 0, i) :: DatumOp(Seen(datas, 0, i)) == op)
    && (op == NOT_SET || AnyDao(ins) || Groups(k, outs) >= 2 || AnyNoted(outs, datas))
  }

  /** What the operation demands of the whole transaction. */
  ghost predicate Balanced(k: Keys, v: Val, op: Op)
    requires RawForm(v) && AllInRange(InsOf(v)) && AllPlain(OutsOf(v))
  {
    var (ins, outs) := (InsOf(v), OutsOf(v));
    match op
    case MULTI_OUTPUT => SourceCount(ins) <= 1
    case PREPARE => Mod64(Sends(k, outs, 0, IntoDao)) == Mod64(Spends(k, ins, 0, DaoCells))
    case WITHDRAW => Mod64(Sends(k, outs, 0, IntoDao)) == 0 && Mod64(Sends(k, outs, 0, Away)) == 0
    case NOT_SET => SourceCount(ins) > 1 ==> !AnyMultisig(ins, 0) && Ours(k, ins, 0, Zero(20)) == 1
    case _ => true
  }

  ghost predicate Acceptable(k: Keys, v: Val, op: Op)
    requires RawForm(v) && AllInRange(InsOf(v)) && AllPlain(OutsOf(v))
  {
    Cellwise(k, v) && Asked(k, v, op) && Balanced(k, v, op)
  }

  /** The operation after the inputs, and after the outputs, if all ask for `op`. */
  ghost function AskedIn(v: Val, op: Op): Op
    requires RawForm(v) && AllInRange(InsOf(v))
  {
    if AnyDao(InsOf(v)) then op else NOT_SET
  }

  ghost function AskedOut(k: Keys, v: Val, op: Op): Op
    requires RawForm(v) && AllInRange(InsOf(v)) && AllPlain(OutsOf(v))
  {
    if Groups(k, OutsOf(v)) >= 2 then MULTI_OUTPUT else AskedIn(v, op)
  }

  /** The conditions of the three phases are those of the cells. */
  lemma {:induction false} PhaseConditions(k: Keys, v: Val, mask: set<nat>, t1: Op, t2: Op, op: Op)
    requires RawForm(v) && AllInRange(InsOf(v)) && AllPlain(OutsOf(v)) && forall i: nat :: i in mask <==> Noted(OutsOf(v), 0, i)
    requires InputsFine(k, InsOf(v), 0, NOT_SET, t1) && Ours(k, InsOf(v), 0, Zero(20)) <= 1
    requires OutputsFine(k, OutsOf(v), 0) && GroupsFine(Groups(k, OutsOf(v)), t1, t2)
    requires DataFine(k, DatasOf(v), 0, mask, false, t2, op)
    ensures Cellwise(k, v) && Asked(k, v, op)
  {
    hide Known, KnownOutput, RawForm, AllInRange, AllPlain, InsOf, OutsOf, DatasOf, IsDao, SpentCell, SpentDatum, HasNonzero, Noted, Seen, Groups, Ours, DaoOp,
      DatumOp, Asked;
    AskedByAll(k, v, mask, t1, t2, op);
  }

  lemma {:induction false} AskedByAll(k: Keys, v: Val, mask: set<nat>, t1: Op, t2: Op, op: Op)
    requires RawForm(v) && AllInRange(InsOf(v)) && AllPlain(OutsOf(v)) && forall i: nat :: i in mask <==> Noted(OutsOf(v), 0, i)
    requires InputsFine(k, InsOf(v), 0, NOT_SET, t1) && GroupsFine(Groups(k, OutsOf(v)), t1, t2) && DataFine(k, DatasOf(v), 0, mask, false, t2, op)
    ensures Asked(k, v, op)
  {
    hide RawForm, AllInRange, AllPlain, InsOf, OutsOf, DatasOf, IsDao, SpentCell, SpentDatum, HasNonzero, Noted, Seen, Groups, DaoOp, DatumOp, AnyDao, AnyNoted,
      InputsFine, DataFine;
    DaoAsked(k, InsOf(v), t1);
    DataAsked(k, OutsOf(v), DatasOf(v), mask, t2, op);
  }

  /** What DAO inputs ask for. */
  lemma {:induction false} DaoAsked(k: Keys, ins: seq<Val>, t1: Op)
    requires AllInRange(ins) && InputsFine(k, ins, 0, NOT_SET, t1)
    ensures forall i | 0 <= i < |ins| && IsDao(SpentCell(ins[i])) :: AnyDao(ins) && DaoOp(HasNonzero(SpentDatum(ins[i]))) == t1
    ensures if AnyDao(ins) then t1 != NOT_SET && t1 != MULTI_OUTPUT else t1 == NOT_SET
  {
    hide Known, InputShape, InRange, IsDao, SpentCell, SpentDatum, HasNonzero, DaoOp;
    forall nonzero: bool ensures DaoOp(nonzero) != NOT_SET && DaoOp(nonzero) != MULTI_OUTPUT { OpsDiffer(nonzero); }
    if AnyDao(ins) {
      var i :| 0 <= i < |ins| && IsDao(SpentCell(ins[i]));
      assert DaoOp(HasNonzero(SpentDatum(ins[i]))) == t1;
    }
  }

  /** What data asks for. */
  lemma {:induction false} DataAsked(k: Keys, outs: seq<Val>, datas: seq<Val>, mask: set<nat>, t2: Op, op: Op)
    requires AllPlain(outs) && Blobs(datas) && (forall i: nat :: i in mask <==> Noted(outs, 0, i)) && DataFine(k, datas, 0, mask, false, t2, op)
    ensures forall i | 0 <= i < |datas| && Noted(outs, 0, i) :: DatumOp(Seen(datas, 0, i)) == op
    ensures if AnyNoted(outs, datas) then op != NOT_SET && op != MULTI_OUTPUT && (t2 == op || t2 == NOT_SET) else t2 == op
  {
    hide AllPlain, Blobs, Noted, Seen, DatumOp;
    forall nonzero: bool ensures DatumOp(nonzero) != NOT_SET && DatumOp(nonzero) != MULTI_OUTPUT { OpsDiffer(nonzero); }
    if AnyNoted(outs, datas) {
      var i :| 0 <= i < |datas| && Noted(outs, 0, i);
      assert i in mask && DatumOp(Seen(datas, 0, i)) == op;
    }
  }

  lemma {:induction false} OpsDiffer(nonzero: bool)
    ensures DaoOp(nonzero) != NOT_SET && DaoOp(nonzero) != MULTI_OUTPUT && DatumOp(nonzero) != NOT_SET && DatumOp(nonzero) != MULTI_OUTPUT
  {
  }

  lemma {:induction false} CellConditions(k: Keys, v: Val, op: Op)
    requires RawForm(v) && AllInRange(InsOf(v)) && AllPlain(OutsOf(v)) && Cellwise(k, v) && Asked(k, v, op)
    ensures var t1, t2 := AskedIn(v, op), AskedOut(k, v, op);
            && InputsFine(k, InsOf(v), 0, NOT_SET, t1) && Ours(k, InsOf(v), 0, Zero(20)) <= 1
            && OutputsFine(k, OutsOf(v), 0) && GroupsFine(Groups(k, OutsOf(v)), t1, t2)
  {
    hide Known, KnownOutput, RawForm, AllInRange, AllPlain, InsOf, OutsOf, DatasOf, IsDao, SpentCell, SpentDatum, HasNonzero, Noted, Seen, Groups, Ours, DaoOp, DatumOp;
    forall nonzero: bool ensures DaoOp(nonzero) != NOT_SET && DaoOp(nonzero) != MULTI_OUTPUT { OpsDiffer(nonzero); }
  }

  lemma {:induction false} DataConditions(k: Keys, v: Val, mask: set<nat>, op: Op)
    requires RawForm(v) && AllInRange(InsOf(v)) && AllPlain(OutsOf(v)) && Cellwise(k, v) && Asked(k, v, op)
    requires forall i: nat :: i in mask <==> Noted(OutsOf(v), 0, i)
    ensures DataFine(k, DatasOf(v), 0, mask, false, AskedOut(k, v, op), op)
  {
    hide Known, KnownOutput, RawForm, AllInRange, AllPlain, InsOf, OutsOf, DatasOf, IsDao, SpentCell, SpentDatum, HasNonzero, Noted, Seen, Groups, Ours, DaoOp, DatumOp;
    forall nonzero: bool ensures DatumOp(nonzero) != NOT_SET && DatumOp(nonzero) != MULTI_OUTPUT { OpsDiffer(nonzero); }
  }

  /** No phase raises a flag, and the operation is `op`, exactly if the cells say so. */
  lemma {:induction false} PhasesAccepted(k: Keys, v: Val, op: Op)
    requires Ordinary(v) && RawForm(v) && AllInRange(InsOf(v)) && AllPlain(OutsOf(v))
    ensures Unflagged(k, v) && AfterData(k, v).shown.tag == op <==> Cellwise(k, v) && Asked(k, v, op)
  {
    hide *;
    if Cellwise(k, v) && Asked(k, v, op) { PhasesPass(k, v, op); }
    if Unflagged(k, v) && AfterData(k, v).shown.tag == op {
      var a, c := AfterInputs(k, v), BeforeOutputsEnd(k, v);
      UnflaggedIs(k, v);
      InputsVerdict(k, v, a.shown.tag);
      OutputsVerdict(k, v, c.shown.tag);
      DataVerdict(k, v, op);
      MaskSays(k, v);
      GroupsAre(k, OutsOf(v));
      PhaseConditions(k, v, c.sent.mask, a.shown.tag, c.shown.tag, op);
    }
  }

  lemma {:induction false} GroupsAre(k: Keys, vals: seq<Val>)
    requires AllPlain(vals)
    ensures Groups(k, vals) == |Compress(Paid(k, vals, 0))|
  {
    hide Paid, Compress, AllPlain;
  }

  lemma {:induction false} PhasesPass(k: Keys, v: Val, op: Op)
    requires Ordinary(v) && RawForm(v) && AllInRange(InsOf(v)) && AllPlain(OutsOf(v)) && Cellwise(k, v) && Asked(k, v, op)
    ensures Unflagged(k, v) && AfterData(k, v).shown.tag == op
  {
    hide *;
    var t1, t2 := AskedIn(v, op), AskedOut(k, v, op);
    CellConditions(k, v, op);
    GroupsAre(k, OutsOf(v));
    InputsVerdict(k, v, t1);
    OutputsVerdict(k, v, t2);
    MaskSays(k, v);
    DataConditions(k, v, BeforeOutputsEnd(k, v).sent.mask, op);
    DataVerdict(k, v, op);
    UnflaggedFrom(k, v);
  }

  lemma {:induction false} UnflaggedFrom(k: Keys, v: Val)
    requires RawForm(v) && !AfterInputs(k, v).shown.unsafe && !BeforeOutputsEnd(k, v).shown.unsafe && !AfterData(k, v).shown.unsafe
    ensures Unflagged(k, v)
  {
    hide AfterInputs, BeforeOutputsEnd, AfterData;
  }

  // ---------- What is shown ----------

  /** A transfer to ourselves: nothing goes to another address or is noted as a DAO output, and
      something comes back. */
  ghost predicate SelfOnly(k: Keys, v: Val, op: Op)
    requires RawForm(v) && AllPlain(OutsOf(v))
  {
    && op != PREPARE && op != WITHDRAW && (forall i: nat :: !Noted(OutsOf(v), 0, i))
    && Paid(k, OutsOf(v), 0) == [] && Keeps(k, OutsOf(v), 0)
  }

  /** What the inputs of an unflagged transaction leave behind. */
  ghost predicate InputFacts(k: Keys, ins: seq<Val>, r: Book)
    requires AllInRange(ins)
  {
    && r.spent.plain == Mod64(Spends(k, ins, 0, PlainCells)) && r.spent.mine == Mod64(Spends(k, ins, 0, OwnCells))
    && r.spent.dao == Mod64(Spends(k, ins, 0, DaoCells)) && r.spent.distinct == SourceCount(ins)
    && r.spent.multisig == AnyMultisig(ins, 0) && r.shown.contract == AnyDatum(ins, 0)
    && (r.shown.signedAt != 0 <==> Ours(k, ins, 0, Zero(20)) > 0) && r.shown.signedAt == OursAt(k, ins, 0, Zero(20), 0)
    && r.owner == OwnerIn(ins, 0, Zero(20)) && Untold(r)
  }

  lemma {:induction false} FreshTold()
    ensures var b := InputStart(InputsStart(Cleared()));
            Untold(b) && b.owner == Zero(20) && !b.shown.contract && !b.spent.multisig && b.spent.plain == b.spent.mine == b.spent.dao == 0
    ensures var b := InputsStart(Cleared()); Untold(b) && b.owner == Zero(20) && !b.shown.contract && b.spent == Spent(0, 0, 0, 0, false) && b.shown.signedAt == 0
  {
  }

  lemma {:induction false} FinishTold(b: Book)
    ensures var r := FinishInputs(b); r.spent == b.spent && r.shown == b.shown && r.owner == b.owner && (Untold(b) ==> Untold(r))
  {
  }

  lemma {:induction false} NoInputFacts(k: Keys, vals: seq<Val>)
    requires vals == [] && InputShapes(vals) && AllInRange(vals)
    ensures InputFacts(k, vals, InputsBook(k, vals))
  {
    FreshTold();
    assert InputsBook(k, vals) == InputsStart(Cleared());
    assert Mod64(0) == 0 && Changes(KeysFrom(vals, 0), Zero(20)) == [];
    hide InputsStart, Cleared, Untold;
  }

  lemma {:induction false} AllInputFacts(k: Keys, vals: seq<Val>, b: Book, r: Book)
    requires AllInRange(vals) && InputsTold(k, b, vals, 0, r) && Untold(b) && b.owner == Zero(20) && !b.shown.contract && !b.spent.multisig
    requires b.src.last == Zero(20) && b.shown.signedAt == 0 && b.spent.distinct == 0
    requires Purse(r.spent, PlainCells) == Mod64(0 + Spends(k, vals, 0, PlainCells)) && Purse(r.spent, OwnCells) == Mod64(0 + Spends(k, vals, 0, OwnCells))
    requires Purse(r.spent, DaoCells) == Mod64(0 + Spends(k, vals, 0, DaoCells))
    ensures InputFacts(k, vals, r)
  {
    hide AnyMultisig, AnyDatum, Ours, OursAt, Changes, KeysFrom, OwnerIn, Spends, Untold, Mod64;
  }

  lemma {:induction false} InputsKnown(k: Keys, v: Val)
    requires Ordinary(v) && RawForm(v) && AllInRange(InsOf(v)) && !AfterInputs(k, v).shown.unsafe
    ensures InputFacts(k, InsOf(v), AfterInputs(k, v))
  {
    hide *;
    FewInputs(v);
    Fresh();
    FreshTold();
    AfterInputsIs(k, v);
    InputsBookIs(k, InsOf(v));
    var b, r := InputStart(InputsStart(Cleared())), InputsBook(k, InsOf(v));
    FinishTold(r);
    if InsOf(v) == [] {
      NoInputFacts(k, InsOf(v));
    } else {
      InputsLeave(k, b, InsOf(v), 0);
      InputsPurse(k, b, InsOf(v), 0, PlainCells);
      InputsPurse(k, b, InsOf(v), 0, OwnCells);
      InputsPurse(k, b, InsOf(v), 0, DaoCells);
      PurseIs(b.spent);
      AllInputFacts(k, InsOf(v), b, r);
    }
    FactsSame(k, InsOf(v), r, AfterInputs(k, v));
  }

  lemma {:induction false} PurseIs(s: Spent)
    ensures Purse(s, PlainCells) == s.plain && Purse(s, OwnCells) == s.mine && Purse(s, DaoCells) == s.dao
  {
  }

  lemma {:induction false} FactsSame(k: Keys, ins: seq<Val>, a: Book, b: Book)
    requires AllInRange(ins) && InputFacts(k, ins, a) && b.spent == a.spent && b.shown == a.shown && b.owner == a.owner
    ensures InputFacts(k, ins, b)
  {
    hide AnyMultisig, AnyDatum, Ours, OursAt, SourceCount, OwnerIn, Spends, Mod64;
  }

  /** What the outputs of an unflagged transaction leave behind. */
  ghost predicate OutputFacts(k: Keys, outs: seq<Val>, a: Book, r: Book)
    requires AllPlain(outs) && Fit(outs)
  {
    && r.sent.plain == Mod64(Sends(k, outs, 0, Away)) && r.sent.change == Mod64(Sends(k, outs, 0, Back))
    && r.sent.dao == Mod64(Sends(k, outs, 0, IntoDao)) && r.sent.entries == Compress(Paid(k, outs, 0)) && !r.sent.isSelf
    && (r.shown.hasDest <==> r.sent.entries != []) && (r.shown.hasChange <==> Keeps(k, outs, 0)) && Consistent(r)
    && (forall i: nat :: i in r.sent.mask <==> Noted(outs, 0, i))
    && r.owner == OwnerOut(outs, 0, a.owner) && r.shown.contract == a.shown.contract && r.shown.signedAt == a.shown.signedAt && Untold(r)
  }

  lemma {:induction false} NothingSentIs(a: Book)
    requires a.sent == NothingSent()
    ensures var b := OutputStart(a, 0);
            && b.sent.plain == b.sent.change == b.sent.dao == 0 && !b.sent.isSelf && b.owner == a.owner && b.shown == a.shown && (Untold(a) ==> Untold(b))
    ensures a.sent.plain == a.sent.change == a.sent.dao == 0 && !a.sent.isSelf && a.sent.entries == [] && a.sent.mask == {}
  {
  }

  lemma {:induction false} NoOutputFacts(k: Keys, outs: seq<Val>, a: Book)
    requires outs == [] && AllPlain(outs) && Fit(outs) && a.sent == NothingSent() && Untold(a) && !a.shown.hasDest && !a.shown.hasChange && !a.thrown
    ensures OutputFacts(k, outs, a, a)
  {
    NothingSentIs(a);
    assert Mod64(0) == 0;
    hide Untold;
  }

  lemma {:induction false} PortionIs(s: Sent)
    ensures Portion(s, Away) == s.plain && Portion(s, Back) == s.change && Portion(s, IntoDao) == s.dao
  {
  }

  lemma {:induction false} AllOutputFacts(k: Keys, outs: seq<Val>, a: Book, b: Book, r: Book)
    requires AllPlain(outs) && Fit(outs) && Consistent(r) && Untold(r) && !b.sent.isSelf && !b.shown.hasChange && b.owner == a.owner && b.shown == a.shown
    requires Portion(r.sent, Away) == Mod64(0 + Sends(k, outs, 0, Away)) && Portion(r.sent, Back) == Mod64(0 + Sends(k, outs, 0, Back))
    requires Portion(r.sent, IntoDao) == Mod64(0 + Sends(k, outs, 0, IntoDao)) && r.sent.entries == Compress(Paid(k, outs, 0))
    requires r.shown.hasChange <==> b.shown.hasChange || Keeps(k, outs, 0)
    requires r.owner == OwnerOut(outs, 0, b.owner) && r.shown.contract == b.shown.contract && r.shown.signedAt == b.shown.signedAt && r.sent.isSelf == b.sent.isSelf
    requires forall i: nat :: i in r.sent.mask <==> Noted(outs, 0, i)
    ensures OutputFacts(k, outs, a, r)
  {
    PortionIs(r.sent);
    HasDestIs(r);
    hide Portion, Sends, Compress, Paid, Keeps, OwnerOut, Untold, Mod64, Consistent, Noted;
  }

  lemma {:induction false} HasDestIs(r: Book)
    requires Consistent(r)
    ensures r.shown.hasDest <==> r.sent.entries != []
  {
    hide TotalOf;
  }

  lemma {:induction false} OutputsKnown(k: Keys, v: Val)
    requires Ordinary(v) && RawForm(v) && AllInRange(InsOf(v)) && AllPlain(OutsOf(v)) && Fit(OutsOf(v)) && !AfterInputs(k, v).shown.unsafe && !BeforeOutputsEnd(k, v).shown.unsafe
    ensures OutputFacts(k, OutsOf(v), AfterInputs(k, v), BeforeOutputsEnd(k, v))
  {
    hide *;
    var a, r, outs := AfterInputs(k, v), BeforeOutputsEnd(k, v), OutsOf(v);
    InputsKnown(k, v);
    UntoldNow(k, InsOf(v), a);
    OrdinaryIs(v);
    BeforeEndIs(k, v);
    InputsPhase(k, v);
    BeforeEntries(k, v);
    MaskSays(k, v);
    NothingGone(a);
    StartKeeps(a, 0);
    NothingSentIs(a);
    if outs == [] {
      NoOutputFacts(k, outs, a);
    } else {
      var b := OutputStart(a, 0);
      OutputsPortion(k, b, outs, 0, Away);
      OutputsPortion(k, b, outs, 0, Back);
      OutputsPortion(k, b, outs, 0, IntoDao);
      PortionIs(b.sent);
      OutputsKeep(k, b, outs, 0);
      OutputsLeave(k, b, outs, 0);
      AllOutputFacts(k, outs, a, b, r);
    }
  }

  lemma {:induction false} UntoldNow(k: Keys, ins: seq<Val>, r: Book)
    requires AllInRange(ins) && InputFacts(k, ins, r)
    ensures Untold(r)
  {
    hide Untold;
  }

  /** A transfer to ourselves makes the change the amount. */
  predicate Swaps(b: Book) {
    b.sent.mask == {} && b.shown.tag != PREPARE && b.shown.tag != WITHDRAW && !b.shown.hasDest && b.shown.hasChange
  }

  lemma {:induction false} EndSwaps(k: Keys, b: Book)
    requires Consistent(b) && !b.sent.isSelf
    ensures var r, self := OutputsEnd(k, b), Swaps(b);
            && r.sent.isSelf == self && r.sent.plain == (if self then b.sent.change else b.sent.plain) && r.sent.dao == b.sent.dao
            && r.sent.entries == (if self then [Entry(0, k.change + Zero(8), false)] else b.sent.entries)
            && r.sent.mask == b.sent.mask && r.spent == b.spent && r.owner == b.owner && r.shown.contract == b.shown.contract
            && r.shown.signedAt == b.shown.signedAt && r.shown.tag == b.shown.tag && (Untold(b) ==> Untold(r))
  {
    hide TotalOf, Zero;
  }

  /** What its inputs have left behind of an unflagged transaction, before its end. */
  ghost predicate FromInputs(k: Keys, ins: seq<Val>, b: Book)
    requires AllInRange(ins)
  {
    && b.spent.plain == Mod64(Spends(k, ins, 0, PlainCells)) && b.spent.mine == Mod64(Spends(k, ins, 0, OwnCells))
    && b.spent.dao == Mod64(Spends(k, ins, 0, DaoCells)) && b.spent.distinct == SourceCount(ins)
    && b.spent.multisig == AnyMultisig(ins, 0) && (b.shown.signedAt != 0 <==> Ours(k, ins, 0, Zero(20)) > 0)
    && b.shown.signedAt == OursAt(k, ins, 0, Zero(20), 0)
  }

  /** What its outputs have. */
  predicate FromOutputs(k: Keys, outs: seq<Val>, self: bool, b: Book)
    requires AllPlain(outs)
  {
    && b.sent.isSelf == self && b.sent.dao == Mod64(Sends(k, outs, 0, IntoDao))
    && b.sent.plain == Mod64(if self then Sends(k, outs, 0, Back) else Sends(k, outs, 0, Away))
    && b.sent.entries == (if self then [Entry(0, k.change + Zero(8), false)] else Compress(Paid(k, outs, 0)))
  }

  ghost function LastOwner(ins: seq<Val>, outs: seq<Val>): Hash20
    requires AllInRange(ins) && Fit(outs)
  {
    OwnerOut(outs, 0, OwnerIn(ins, 0, Zero(20)))
  }

  /** What an unflagged transaction has left behind before its end. */
  ghost predicate AllFacts(k: Keys, v: Val, op: Op, b: Book)
    requires RawForm(v) && AllInRange(InsOf(v)) && AllPlain(OutsOf(v)) && Fit(OutsOf(v))
  {
    && FromInputs(k, InsOf(v), b) && FromOutputs(k, OutsOf(v), SelfOnly(k, v, op), b)
    && b.owner == LastOwner(InsOf(v), OutsOf(v)) && b.shown.contract == (AnyDatum(InsOf(v), 0) || AnyUnnoted(v)) && Untold(b)
  }

  /** An output that is not noted as a DAO cell has data. */
  ghost predicate AnyUnnoted(v: Val)
    requires RawForm(v) && AllPlain(OutsOf(v))
  {
    exists i | 0 <= i < |DatasOf(v)| :: !Noted(OutsOf(v), 0, i) && DatasOf(v)[i].bytes != []
  }

  lemma {:induction false} UnnotedIs(v: Val, mask: set<nat>)
    requires RawForm(v) && AllPlain(OutsOf(v)) && Blobs(DatasOf(v)) && forall i: nat :: i in mask <==> Noted(OutsOf(v), 0, i)
    ensures AnyItem(DatasOf(v), 0, mask) <==> AnyUnnoted(v)
  {
    hide RawForm, AllPlain, Noted, OutsOf, DatasOf;
    if AnyItem(DatasOf(v), 0, mask) {
      var i :| 0 <= i < |DatasOf(v)| && i !in mask && DatasOf(v)[i].bytes != [];
      assert !Noted(OutsOf(v), 0, i);
    }
    if AnyUnnoted(v) {
      var i :| 0 <= i < |DatasOf(v)| && !Noted(OutsOf(v), 0, i) && DatasOf(v)[i].bytes != [];
      assert i !in mask;
    }
  }

  /** The books swap exactly if the cells are those of a transfer to ourselves. */
  lemma {:induction false} SwapsIs(k: Keys, v: Val, a: Book, c: Book, op: Op)
    requires RawForm(v) && AllInRange(InsOf(v)) && AllPlain(OutsOf(v)) && Fit(OutsOf(v)) && OutputFacts(k, OutsOf(v), a, c)
    requires Asked(k, v, op) && DataFine(k, DatasOf(v), 0, c.sent.mask, false, c.shown.tag, op)
    ensures Swaps(c) <==> SelfOnly(k, v, op)
  {
    EmptyMask(OutsOf(v), c.sent.mask);
    NoGroupsIff(Paid(k, OutsOf(v), 0));
    hide RawForm, AllInRange, AllPlain, Fit, InsOf, OutsOf, DatasOf, Noted, Paid, Compress, Keeps, Sends, OwnerOut, Consistent, Seen, DatumOp, Asked, Untold, Mod64;
    if c.sent.mask == {} { assert c.shown.tag == op; }
  }

  lemma {:induction false} EmptyMask(outs: seq<Val>, mask: set<nat>)
    requires AllPlain(outs) && forall i: nat :: i in mask <==> Noted(outs, 0, i)
    ensures mask == {} <==> forall i: nat :: !Noted(outs, 0, i)
  {
    hide Noted;
  }

  lemma {:induction false} NoGroupsIff(xs: seq<Entry>)
    ensures Compress(xs) == [] <==> xs == []
  {
    if xs != [] { CompressSome(xs); }
    hide TotalOf;
  }

  lemma {:induction false} FactsKnown(k: Keys, v: Val, op: Op)
    requires Ordinary(v) && RawForm(v) && AllInRange(InsOf(v)) && AllPlain(OutsOf(v)) && Fit(OutsOf(v))
    requires Unflagged(k, v) && AfterData(k, v).shown.tag == op && Asked(k, v, op)
    ensures AllFacts(k, v, op, AfterData(k, v))
  {
    hide *;
    UnflaggedIs(k, v);
    var a, c, b := AfterInputs(k, v), BeforeOutputsEnd(k, v), AfterData(k, v);
    var e := OutputsEnd(k, c);
    InputsKnown(k, v);
    OutputsKnown(k, v);
    DataVerdict(k, v, op);
    SwapsIs(k, v, a, c, op);
    OutputFactsSay(k, OutsOf(v), a, c);
    EndSwaps(k, c);
    AfterDataIs(k, v);
    DatumStartKeeps(e, 0);
    DatumOwner(e, 0);
    DataPhase(k, v);
    OutputsPhaseSpent(k, v);
    UnnotedIs(v, c.sent.mask);
    if DatasOf(v) == [] { NoItem(DatasOf(v), e.sent.mask); } else { DataLeaves(k, DatumStart(e, 0), DatasOf(v), 0); }
    Gather(k, v, op, a, c, e, b);
  }

  lemma {:induction false} OutputsPhaseSpent(k: Keys, v: Val)
    requires Ordinary(v) && RawForm(v)
    ensures BeforeOutputsEnd(k, v).spent == AfterInputs(k, v).spent
  {
    hide *;
    OrdinaryIs(v);
    OutputsPhase(k, v);
  }

  lemma {:induction false} OutputFactsSay(k: Keys, outs: seq<Val>, a: Book, r: Book)
    requires AllPlain(outs) && Fit(outs) && OutputFacts(k, outs, a, r)
    ensures Consistent(r) && !r.sent.isSelf && (forall i: nat :: i in r.sent.mask <==> Noted(outs, 0, i)) && Untold(r)
  {
    hide Sends, Compress, Paid, Keeps, OwnerOut, Untold, Mod64, Consistent, Noted;
  }

  lemma {:induction false} Gather(k: Keys, v: Val, op: Op, a: Book, c: Book, e: Book, b: Book)
    requires RawForm(v) && AllInRange(InsOf(v)) && AllPlain(OutsOf(v)) && Fit(OutsOf(v))
    requires InputFacts(k, InsOf(v), a) && OutputFacts(k, OutsOf(v), a, c) && c.spent == a.spent == e.spent == b.spent && b.sent == e.sent
    requires var self := SelfOnly(k, v, op);
             && e.sent.isSelf == self && e.sent.plain == (if self then c.sent.change else c.sent.plain) && e.sent.dao == c.sent.dao
             && e.sent.entries == (if self then [Entry(0, k.change + Zero(8), false)] else c.sent.entries)
             && e.owner == c.owner && e.shown.contract == c.shown.contract && e.shown.signedAt == c.shown.signedAt
    requires b.owner == e.owner && b.shown.signedAt == e.shown.signedAt && b.shown.contract == (e.shown.contract || AnyUnnoted(v)) && Untold(b)
    ensures AllFacts(k, v, op, b)
  {
    hide RawForm, AllInRange, AllPlain, Fit, InsOf, OutsOf, DatasOf, Noted, Paid, Compress, Keeps, Sends, Spends, OwnerOut, OwnerIn, Consistent, Untold, Mod64,
      SelfOnly, AnyUnnoted, AnyDatum, AnyMultisig, SourceCount, Ours, OursAt, Zero;
  }

  /** The operation and amounts that are shown when `op` is asked for; sums are modulo 2^64. */
  ghost predicate AmountsFor(k: Keys, ins: seq<Val>, outs: seq<Val>, self: bool, op: Op, r: Book)
    requires AllInRange(ins) && AllPlain(outs) && Fit(outs)
  {
    var (s, sources, paid) := (r.shown, SourceCount(ins), Mod64(if self then Sends(k, outs, 0, Back) else Sends(k, outs, 0, Away)));
    match op
    case NOT_SET =>
      && s.tag == (if sources > 1 then MULTI_INPUT else if self then SELF else PLAIN) && s.amountSnd == paid && s.daoAmount == 0
      && (s.amountFst, s.ofAll) == (if sources > 1 then (Mod64(Spends(k, ins, 0, OwnCells)), sources) else (0, 0))
      && s.signedAt == OursAt(k, ins, 0, Zero(20), 0)
    case MULTI_OUTPUT => s.tag == op && s.amountSnd == paid && s.amountFst == s.ofAll == s.daoAmount == 0
    case WITHDRAW =>
      && s.tag == op && s.daoAmount == Mod64(Spends(k, ins, 0, DaoCells)) && s.amountFst == s.amountSnd == s.ofAll == 0
      && r.owner == LastOwner(ins, outs)
    case _ =>
      && s.tag == op && s.daoAmount == Mod64(Sends(k, outs, 0, IntoDao)) && s.amountFst == s.amountSnd == s.ofAll == 0
      && r.owner == LastOwner(ins, outs)
  }

  /** What is shown for an operation, in terms of the cells. */
  ghost predicate ShownFor(k: Keys, v: Val, op: Op, r: Book)
    requires RawForm(v) && AllInRange(InsOf(v)) && AllPlain(OutsOf(v)) && Fit(OutsOf(v))
  {
    var (ins, outs, self) := (InsOf(v), OutsOf(v), SelfOnly(k, v, op));
    && !r.shown.unsafe && AmountsFor(k, ins, outs, self, op, r)
    && r.shown.fee == Mod64(if op == WITHDRAW then OutSum(outs, 0) - SpentSum(ins, 0) else SpentSum(ins, 0) - OutSum(outs, 0))
    && r.shown.contract == (AnyDatum(ins, 0) || AnyUnnoted(v))
    && r.sent.entries == if self then [Entry(0, k.change + Zero(8), false)] else Compress(Paid(k, outs, 0))
  }

  /** The operations that cells can ask for. */
  predicate Askable(op: Op) {
    op == NOT_SET || op == MULTI_OUTPUT || op == DEPOSIT || op == PREPARE || op == WITHDRAW
  }

  lemma {:induction false} AskedIs(k: Keys, v: Val, op: Op)
    requires RawForm(v) && AllInRange(InsOf(v)) && AllPlain(OutsOf(v)) && Asked(k, v, op)
    ensures Askable(op)
  {
    hide RawForm, AllInRange, AllPlain, InsOf, OutsOf, DatasOf, Noted, Groups, IsDao, SpentCell, SpentDatum, HasNonzero, Seen;
  }

  /** The last callback, on books that are not flagged yet. */
  lemma {:induction false} FinalShows(b: Book)
    requires !b.shown.unsafe && Untold(b) && Askable(b.shown.tag)
    ensures var r, op, s := Finalize(b), b.shown.tag, Finalize(b).shown;
            && (!s.unsafe <==>
                 match op
                 case MULTI_OUTPUT => b.spent.distinct <= 1
                 case PREPARE => b.sent.dao == b.spent.dao
                 case WITHDRAW => b.sent.dao == 0 && b.sent.plain == 0
                 case NOT_SET => b.spent.distinct > 1 ==> !b.spent.multisig && b.shown.signedAt != 0
                 case _ => true)
            && r.sent == b.sent && r.owner == b.owner && s.contract == b.shown.contract && s.signedAt == b.shown.signedAt
            && (!s.unsafe ==>
                 match op
                 case NOT_SET =>
                   && s.tag == (if b.spent.distinct > 1 then MULTI_INPUT else if b.sent.isSelf then SELF else PLAIN)
                   && s.amountSnd == b.sent.plain && s.daoAmount == 0
                   && (s.amountFst, s.ofAll) == if b.spent.distinct > 1 then (b.spent.mine, b.spent.distinct) else (0, 0)
                 case MULTI_OUTPUT => s.tag == op && s.amountSnd == b.sent.plain && s.amountFst == s.ofAll == s.daoAmount == 0
                 case WITHDRAW => s.tag == op && s.daoAmount == b.spent.dao && s.amountFst == s.amountSnd == s.ofAll == 0
                 case _ => s.tag == op && s.daoAmount == b.sent.dao && s.amountFst == s.amountSnd == s.ofAll == 0)
  {
    FinalFlags(b);
    if !Finalize(b).shown.unsafe { FinalAmounts(b); }
    hide Finalize;
  }

  lemma {:induction false} FinalFlags(b: Book)
    requires !b.shown.unsafe && Askable(b.shown.tag)
    ensures var r := Finalize(b);
            && (!r.shown.unsafe <==>
                 match b.shown.tag
                 case MULTI_OUTPUT => b.spent.distinct <= 1
                 case PREPARE => b.sent.dao == b.spent.dao
                 case WITHDRAW => b.sent.dao == 0 && b.sent.plain == 0
                 case NOT_SET => b.spent.distinct > 1 ==> !b.spent.multisig && b.shown.signedAt != 0
                 case _ => true)
            && r.sent == b.sent && r.owner == b.owner && r.shown.contract == b.shown.contract && r.shown.signedAt == b.shown.signedAt
            && (!r.shown.unsafe ==> r.shown == Amounts(b).(tag := Settled(b), fee := r.shown.fee))
  {
    FinalKeeps(b);
    hide Finalize, Amounts, Settled;
  }

  lemma {:induction false} AmountsKeep(b: Book)
    ensures Amounts(b).contract == b.shown.contract && Amounts(b).unsafe == b.shown.unsafe && Amounts(b).signedAt == b.shown.signedAt
  {
  }

  lemma {:induction false} FinalKeeps(b: Book)
    ensures var r := Finalize(b);
            && r.shown.unsafe == (b.shown.unsafe || Rejects(b))
            && r.sent == b.sent && r.owner == b.owner && r.shown.contract == b.shown.contract && r.shown.signedAt == b.shown.signedAt
            && (!r.shown.unsafe ==> r.shown == Amounts(b).(tag := Settled(b), fee := r.shown.fee))
  {
    AmountsKeep(b);
    hide Amounts, Settled, Rejects, Balance, Sub64;
  }

  lemma {:induction false} FinalAmounts(b: Book)
    requires Untold(b) && Askable(b.shown.tag)
    ensures var op, s := b.shown.tag, Amounts(b).(tag := Settled(b));
            match op
            case NOT_SET =>
              (b.spent.distinct > 1 && b.spent.multisig)
              || (&& s.tag == (if b.spent.distinct > 1 then MULTI_INPUT else if b.sent.isSelf then SELF else PLAIN)
                  && s.amountSnd == b.sent.plain && s.daoAmount == 0
                  && (s.amountFst, s.ofAll) == if b.spent.distinct > 1 then (b.spent.mine, b.spent.distinct) else (0, 0))
            case MULTI_OUTPUT => s.tag == op && s.amountSnd == b.sent.plain && s.amountFst == s.ofAll == s.daoAmount == 0
            case WITHDRAW => s.tag == op && s.daoAmount == b.spent.dao && s.amountFst == s.amountSnd == s.ofAll == 0
            case _ => s.tag == op && s.daoAmount == b.sent.dao && s.amountFst == s.amountSnd == s.ofAll == 0
  {
  }


  lemma {:induction false} BalancedIs(k: Keys, v: Val, op: Op, b: Book)
    requires Ordinary(v) && RawForm(v) && AllInRange(InsOf(v)) && AllPlain(OutsOf(v)) && Fit(OutsOf(v))
    requires AllFacts(k, v, op, b) && Askable(op) && Ours(k, InsOf(v), 0, Zero(20)) <= 1
    ensures Balanced(k, v, op) <==>
              match op
              case MULTI_OUTPUT => b.spent.distinct <= 1
              case PREPARE => b.sent.dao == b.spent.dao
              case WITHDRAW => b.sent.dao == 0 && b.sent.plain == 0
              case NOT_SET => b.spent.distinct > 1 ==> !b.spent.multisig && b.shown.signedAt != 0
              case _ => true
  {
    hide RawForm, AllInRange, AllPlain, Fit, InsOf, OutsOf, DatasOf, Noted, Paid, Compress, Keeps, Sends, Spends, OwnerOut, OwnerIn, Untold, Mod64,
      AnyUnnoted, AnyDatum, AnyMultisig, SourceCount, Ours, OursAt, Zero, Ordinary;
  }

  lemma {:induction false} OursFew(k: Keys, v: Val)
    requires RawForm(v) && AllInRange(InsOf(v)) && AllPlain(OutsOf(v)) && Cellwise(k, v)
    ensures Ours(k, InsOf(v), 0, Zero(20)) <= 1
  {
    hide RawForm, AllInRange, AllPlain, InsOf, OutsOf, DatasOf, Noted, Known, KnownOutput, Ours, Groups;
  }

  lemma {:induction false} FactsUntold(k: Keys, v: Val, op: Op, b: Book)
    requires RawForm(v) && AllInRange(InsOf(v)) && AllPlain(OutsOf(v)) && Fit(OutsOf(v)) && AllFacts(k, v, op, b)
    ensures Untold(b)
  {
    hide RawForm, AllInRange, AllPlain, Fit, InsOf, OutsOf, Paid, Compress, Sends, Spends, OwnerOut, OwnerIn, Untold, Mod64,
      SelfOnly, AnyUnnoted, AnyDatum, AnyMultisig, SourceCount, Ours, OursAt, Zero;
  }

  /** If a transaction is not flagged before its end, the end flags it exactly if the operation's demand
      on the whole is not met; otherwise it is shown as its cells say. */
  lemma {:induction false} EndShows(k: Keys, v: Val, op: Op)
    requires Ordinary(v) && RawForm(v) && AllInRange(InsOf(v)) && AllPlain(OutsOf(v)) && Fit(OutsOf(v))
    requires Unflagged(k, v) && AfterData(k, v).shown.tag == op && Cellwise(k, v) && Asked(k, v, op)
    ensures !Accounts(k, v).shown.unsafe <==> Balanced(k, v, op)
    ensures !Accounts(k, v).shown.unsafe ==> ShownFor(k, v, op, Accounts(k, v))
  {
    hide *;
    var b := AfterData(k, v);
    UnflaggedIs(k, v);
    AskedIs(k, v, op);
    FactsKnown(k, v, op);
    FactsUntold(k, v, op, b);
    OursFew(k, v);
    BalancedIs(k, v, op, b);
    AccountsIs(k, v);
    FinalShows(b);
    OrdinaryIs(v);
    ValueConserved(k, v);
    if !Accounts(k, v).shown.unsafe { ShowsFacts(k, v, op, b, Accounts(k, v)); }
  }

  lemma {:induction false} ShowsFacts(k: Keys, v: Val, op: Op, b: Book, r: Book)
    requires RawForm(v) && AllInRange(InsOf(v)) && AllPlain(OutsOf(v)) && Fit(OutsOf(v)) && AllFacts(k, v, op, b) && Askable(op)
    requires var s, ins, outs := r.shown, SpentSum(InsOf(v), 0), OutSum(OutsOf(v), 0);
             && !s.unsafe && s.fee == Mod64(if s.tag == WITHDRAW then outs - ins else ins - outs)
             && r.sent == b.sent && r.owner == b.owner && s.contract == b.shown.contract && s.signedAt == b.shown.signedAt
             && match op
                case NOT_SET =>
                  && s.tag == (if b.spent.distinct > 1 then MULTI_INPUT else if b.sent.isSelf then SELF else PLAIN)
                  && s.amountSnd == b.sent.plain && s.daoAmount == 0
                  && (s.amountFst, s.ofAll) == if b.spent.distinct > 1 then (b.spent.mine, b.spent.distinct) else (0, 0)
                case MULTI_OUTPUT => s.tag == op && s.amountSnd == b.sent.plain && s.amountFst == s.ofAll == s.daoAmount == 0
                case WITHDRAW => s.tag == op && s.daoAmount == b.spent.dao && s.amountFst == s.amountSnd == s.ofAll == 0
                case _ => s.tag == op && s.daoAmount == b.sent.dao && s.amountFst == s.amountSnd == s.ofAll == 0
    ensures ShownFor(k, v, op, r)
  {
    hide RawForm, AllInRange, AllPlain, Fit, InsOf, OutsOf, Paid, Compress, Sends, Spends, OwnerOut, OwnerIn, Untold, Mod64,
      SelfOnly, AnyUnnoted, AnyDatum, AnyMultisig, SourceCount, Ours, OursAt, Zero, SpentSum, OutSum;
  }

  /** A transaction is not flagged exactly if its cells are acceptable for some operation, of which there
      is then only one, and that operation and its amounts are shown. */
  lemma {:induction false} WhatIsShown(k: Keys, v: Val)
    requires Ordinary(v) && RawForm(v) && AllInRange(InsOf(v)) && AllPlain(OutsOf(v)) && Fit(OutsOf(v))
    ensures !Accounts(k, v).shown.unsafe <==> exists op :: Acceptable(k, v, op)
    ensures forall op | Acceptable(k, v, op) :: ShownFor(k, v, op, Accounts(k, v))
  {
    hide *;
    OrdinaryIs(v);
    if !Accounts(k, v).shown.unsafe {
      UnflaggedBefore(k, v);
      var op := AfterData(k, v).shown.tag;
      PhasesAccepted(k, v, op);
      EndShows(k, v, op);
      AcceptableIs(k, v, op);
    }
    forall op | Acceptable(k, v, op) ensures ShownFor(k, v, op, Accounts(k, v)) && !Accounts(k, v).shown.unsafe {
      AcceptableIs(k, v, op);
      PhasesAccepted(k, v, op);
      EndShows(k, v, op);
    }
  }

  lemma {:induction false} AcceptableIs(k: Keys, v: Val, op: Op)
    requires RawForm(v) && AllInRange(InsOf(v)) && AllPlain(OutsOf(v))
    ensures Acceptable(k, v, op) <==> Cellwise(k, v) && Asked(k, v, op) && Balanced(k, v, op)
  {
    hide Cellwise, Asked, Balanced;
  }

  /** Without DAO outputs, a transfer to ourselves shows the sum of all outputs. */
  lemma {:induction false} SelfIsAll(k: Keys, vals: seq<Val>)
    requires AllPlain(vals) && Fit(vals) && Paid(k, vals, 0) == [] && forall i | 0 <= i < |vals| :: !IsDao(vals[i])
    ensures Sends(k, vals, 0, Back) == OutSum(vals, 0)
  {
    SendsAll(k, vals, 0);
    NothingElse(k, vals, 0);
    hide Sends, OutSum, Paid, AllPlain, Fit, IsDao;
  }

  lemma {:induction false} NothingElse(k: Keys, vals: seq<Val>, j: nat)
    requires AllPlain(vals) && j <= |vals| && Paid(k, vals, j) == [] && forall i | 0 <= i < |vals| :: !IsDao(vals[i])
    ensures Sends(k, vals, j, Away) == Sends(k, vals, j, IntoDao) == 0
    decreases |vals| - j
  {
    if j < |vals| {
      NonePaid(k, vals, j);
      NothingElse(k, vals, j + 1);
    }
    hide IsDao, GoesOut, CellShape, Plain, Destined, Amount;
  }

  lemma {:induction false} NonePaid(k: Keys, vals: seq<Val>, j: nat)
    requires AllPlain(vals) && j < |vals|
    ensures Paid(k, vals, j) == [] ==> (IsDao(vals[j]) || !GoesOut(k, vals[j])) && Paid(k, vals, j + 1) == []
  {
    hide IsDao, GoesOut, CellShape, Plain, Destined;
  }

  /** An unflagged transaction signs a multisig input exactly if it spends a plain multisig cell. */
  lemma {:induction false} MultisigSigned(k: Keys, v: Val)
    requires Ordinary(v) && RawForm(v) && AllInRange(InsOf(v)) && !Accounts(k, v).shown.unsafe
    ensures Accounts(k, v).spent.multisig == AnyMultisig(InsOf(v), 0)
  {
    hide *;
    OrdinaryIs(v);
    UnflaggedBefore(k, v);
    UnflaggedIs(k, v);
    InputsKnown(k, v);
    FactsMultisig(k, InsOf(v), AfterInputs(k, v));
  }

  lemma {:induction false} FactsMultisig(k: Keys, ins: seq<Val>, r: Book)
    requires AllInRange(ins) && InputFacts(k, ins, r)
    ensures r.spent.multisig == AnyMultisig(ins, 0)
  {
    hide AnyMultisig, AnyDatum, Ours, OursAt, SourceCount, OwnerIn, Spends, Mod64, Untold;
  }
}
