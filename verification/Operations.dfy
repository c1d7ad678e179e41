/** What the operation shown says about the cells, for a transaction that is not flagged. */
module Operations {
  import opened Words
  import opened Schema
  import opened Automaton
  import opened Encoding
  import opened Transaction
  import opened Ledger
  import opened LedgerCells
  import opened LedgerRuns
  import opened LedgerTotal
  import opened Spending
  import opened Inputs
  import opened Conservation
  import opened Grouping
  import opened Payments
  import opened Sources
  import opened Accounting
  import D = RawDigest

  // ---------- DAO inputs ----------

  /** The operation of an unflagged transaction after its inputs from `j` on. */
  ghost predicate InputsSay(vals: seq<Val>, j: nat, before: Op, after: Op)
    requires AllInRange(vals) && j <= |vals|
  {
    && (after == before || before == NOT_SET)
    && (forall i | j <= i < |vals| && IsDao(SpentCell(vals[i])) :: after == DaoOp(HasNonzero(SpentDatum(vals[i]))) && |SpentDatum(vals[i])| == 8)
    && (after != before ==> exists i | j <= i < |vals| :: IsDao(SpentCell(vals[i])))
  }

  lemma {:induction false} ChargedTag(k: Keys, b: Book, c: Val, d: seq<u8>, r: Book)
    requires CellShape(c) && Charged(k, b, c, d, r)
    ensures if IsDao(c) then |d| == 8 && r.shown.tag == DaoOp(HasNonzero(d)) && (b.shown.tag == NOT_SET || b.shown.tag == r.shown.tag)
            else r.shown.tag == b.shown.tag
  {
    hide IsDao, HasNonzero, Amount, Foreign, IsMultisig, CellShape;
  }

  lemma {:induction false} SayStep(k: Keys, b: Book, vals: seq<Val>, j: nat, b1: Book, after: Op)
    requires AllInRange(vals) && j < |vals| && InputsSay(vals, j + 1, b1.shown.tag, after)
    requires Charged(k, b, SpentCell(vals[j]), SpentDatum(vals[j]), b1)
    ensures InputsSay(vals, j, b.shown.tag, after)
  {
    ChargedTag(k, b, SpentCell(vals[j]), SpentDatum(vals[j]), b1);
    DaoIsSet(HasNonzero(SpentDatum(vals[j])));
    hide IsDao, HasNonzero, InputShape, InRange, SpentCell, SpentDatum, Charged, DaoOp;
  }

  lemma {:induction false} DaoIsSet(nonzero: bool)
    ensures DaoOp(nonzero) != NOT_SET
  {
  }

  lemma {:induction false} InputsTag(k: Keys, b: Book, vals: seq<Val>, j: nat)
    requires AllInRange(vals) && InputShapes(vals) && j <= |vals| && b == InputStart(b)
    ensures var r := AllInputs(k, b, vals, j); !r.shown.unsafe ==> InputsSay(vals, j, b.shown.tag, r.shown.tag)
    decreases |vals| - j
  {
    hide *;
    if j == |vals| {
      InputsDone(k, b, vals);
      SayNothing(vals, b.shown.tag);
    } else {
      RangeAt(vals, j);
      var b1 := NextInput(k, b, vals[j]);
      InputEffect(k, b, vals[j]);
      InputsStep(k, b, vals, j);
      InputsHeld(k, b1, vals, j + 1);
      InputsTag(k, b1, vals, j + 1);
      if !AllInputs(k, b, vals, j).shown.unsafe { SayStep(k, b, vals, j, b1, AllInputs(k, b, vals, j).shown.tag); }
    }
  }

  lemma {:induction false} SayNothing(vals: seq<Val>, tag: Op)
    requires AllInRange(vals)
    ensures InputsSay(vals, |vals|, tag, tag)
  {
  }

  lemma {:induction false} AfterInputsTag(k: Keys, v: Val)
    requires RawForm(v) && AllInRange(InsOf(v))
    ensures var r := AfterInputs(k, v); !r.shown.unsafe ==> InputsSay(InsOf(v), 0, NOT_SET, r.shown.tag)
  {
    hide *;
    Fresh();
    AfterInputsIs(k, v);
    InputsBookIs(k, InsOf(v));
    FinishKeeps(InputsBook(k, InsOf(v)));
    if InsOf(v) == [] { NoInputsTag(k, InsOf(v)); } else { InputsTag(k, InputStart(InputsStart(Cleared())), InsOf(v), 0); }
  }

  lemma {:induction false} NoInputsTag(k: Keys, vals: seq<Val>)
    requires vals == [] && InputShapes(vals) && AllInRange(vals)
    ensures InputsSay(vals, 0, NOT_SET, InputsBook(k, vals).shown.tag)
  {
  }

  // ---------- DAO outputs ----------

  /** A DAO output from `j` on has set bit `i` of the mask: each of the outputs 0 to 31 sets its own bit,
      output 31 sets all bits after it too, and the others set none. */
  predicate Noted(vals: seq<Val>, j: nat, i: int)
    requires AllPlain(vals)
  {
    || (j <= i < |vals| && i < 32 && IsDao(vals[i]))
    || (32 <= i < 64 && j <= 31 < |vals| && IsDao(vals[31]))
  }

  /** The data item of this DAO output is known to be that of a DAO cell. */
  predicate Noticed(vals: seq<Val>, i: nat)
    requires AllPlain(vals) && i < |vals|
  {
    IsDao(vals[i]) && (i < 32 || (i < 64 && IsDao(vals[31])))
  }

  lemma {:induction false} NotedStep(vals: seq<Val>, j: nat, i: nat)
    requires AllPlain(vals) && j < |vals|
    ensures Noted(vals, j, i) <==> Noted(vals, j + 1, i) || (IsDao(vals[j]) && i in ShiftBit(j))
  {
    hide IsDao, CellShape, Plain;
  }

  /** The DAO outputs from `j` on are noted, none of them goes to another address, and the operation
      becomes at most a transfer to several. */
  ghost predicate OutputsSay(k: Keys, vals: seq<Val>, j: nat, b: Book, r: Book)
    requires AllPlain(vals) && j <= |vals|
  {
    && (forall i :: i in r.sent.mask <==> i in b.sent.mask || Noted(vals, j, i))
    && (forall i | j <= i < |vals| && IsDao(vals[i]) :: !GoesOut(k, vals[i]))
    && (r.shown.tag == b.shown.tag || (r.shown.tag == MULTI_OUTPUT && b.shown.tag == NOT_SET))
  }

  lemma {:induction false} OutputSayStep(k: Keys, b: Book, vals: seq<Val>, j: nat, b1: Book, r: Book)
    requires AllPlain(vals) && j < |vals| && b.sent.at == j && CellShape(vals[j]) && |ArgsOf(vals[j])| <= ARG_MAX
    requires Passed(k, b, vals[j], b1) && OutputsSay(k, vals, j + 1, b1, r)
    ensures OutputsSay(k, vals, j, b, r)
  {
    var c := vals[j];
    GoesOutIs(k, b, c);
    assert IsDao(c) ==> b1.sent.mask == b.sent.mask + ShiftBit(j) && !GoesOut(k, c) by { hide Elsewhere, GoesOut, IsDao, IsMultisig, Push, Amount, Destined, CellShape, ArgsOf; }
    assert !IsDao(c) ==> b1.sent.mask == b.sent.mask by { hide Elsewhere, GoesOut, IsDao, IsMultisig, Push, Amount, Destined, CellShape, ArgsOf; }
    assert b1.shown.tag == b.shown.tag || (b1.shown.tag == MULTI_OUTPUT && b.shown.tag == NOT_SET) by {
      hide Elsewhere, GoesOut, IsDao, IsMultisig, Push, Amount, Destined, CellShape, ArgsOf;
    }
    forall i: nat ensures i in r.sent.mask <==> i in b.sent.mask || Noted(vals, j, i) {
      NotedStep(vals, j, i);
      hide Noted, ShiftBit, IsDao, CellShape, Plain;
    }
    hide Passed, Elsewhere, GoesOut, IsDao, IsMultisig, CellShape, ArgsOf, Plain, Noted, ShiftBit;
  }

  lemma {:induction false} OutputsTag(k: Keys, b: Book, vals: seq<Val>, j: nat)
    requires AllPlain(vals) && Fit(vals) && CellShapes(vals) && j <= |vals| && Awaiting(b, j)
    ensures var r := AllOutputs(k, b, vals, j); !r.shown.unsafe ==> OutputsSay(k, vals, j, b, r)
    decreases |vals| - j
  {
    hide *;
    if j == |vals| {
      OutputsDone(k, b, vals);
      OutputsSayNothing(k, b, vals);
    } else {
      OutputsStep(k, b, vals, j);
      var b1 := NextOutput(k, b, vals[j], j);
      NextEffect(k, b, vals[j], j);
      OutputsGone(k, b1, vals, j + 1);
      OutputsTag(k, b1, vals, j + 1);
      AwaitingAt(b, j);
      if !AllOutputs(k, b, vals, j).shown.unsafe { OutputSayStep(k, b, vals, j, b1, AllOutputs(k, b, vals, j)); }
    }
  }

  lemma {:induction false} AwaitingAt(b: Book, j: nat)
    requires Awaiting(b, j)
    ensures b.sent.at == j && b.cell == BLANK_CELL.(active := true)
  {
    hide Consistent;
  }

  lemma {:induction false} OutputsSayNothing(k: Keys, b: Book, vals: seq<Val>)
    requires AllPlain(vals)
    ensures OutputsSay(k, vals, |vals|, b, b)
  {
  }

  /** After the last output, another one is expected, so data is looked at. */
  lemma {:induction false} OutputsActive(k: Keys, b: Book, vals: seq<Val>, j: nat)
    requires Fit(vals) && CellShapes(vals) && j <= |vals| && Awaiting(b, j)
    ensures AllOutputs(k, b, vals, j).cell == BLANK_CELL.(active := true)
    decreases |vals| - j
  {
    hide *;
    if j == |vals| {
      OutputsDone(k, b, vals);
      AwaitingAt(b, j);
    } else {
      OutputsStep(k, b, vals, j);
      NextEffect(k, b, vals[j], j);
      OutputsActive(k, NextOutput(k, b, vals[j], j), vals, j + 1);
    }
  }

  // ---------- Data ----------

  /** The data items of DAO outputs from `j` on, if the operation ends as a deposit or if it does not. */
  ghost predicate DataSay(vals: seq<Val>, j: nat, b: Book, r: Book)
    requires Blobs(vals) && j <= |vals|
  {
    && (r.shown.tag == b.shown.tag || b.shown.tag == NOT_SET)
    && (forall i | j <= i < |vals| && i in b.sent.mask :: |vals[i].bytes| == 8 && (r.shown.tag == DEPOSIT || r.shown.tag == PREPARE))
    && (r.shown.tag == DEPOSIT && b.cell.active ==>
         forall i | j <= i < |vals| && i in b.sent.mask :: !HasNonzero(vals[i].bytes) && !b.cell.nonzero)
    && (r.shown.tag != b.shown.tag ==> exists i | j <= i < |vals| :: i in b.sent.mask)
  }

  lemma {:induction false} DatumSay(k: Keys, b: Book, vals: seq<Val>, j: nat, b1: Book, r: Book)
    requires Blobs(vals) && j < |vals| && b.cell.isDao == (j in b.sent.mask)
    requires b1 == DatumStart(OverDatum(k, b, OutputDatum, vals[j]), j + 1) && !b1.shown.unsafe && DataSay(vals, j + 1, b1, r)
    ensures DataSay(vals, j, b, r)
  {
    assert vals[j] == Blob(vals[j].bytes);
    OutputDatumIs(k, b, vals[j].bytes);
    DatumStartKeeps(OverDatum(k, b, OutputDatum, vals[j]), j + 1);
    hide OverDatum, DatumStart, HasNonzero;
    if r.shown.tag != b.shown.tag && !b.cell.isDao {
      var i :| j + 1 <= i < |vals| && i in b1.sent.mask;
    }
  }

  lemma {:induction false} DataTag(k: Keys, b: Book, vals: seq<Val>, j: nat)
    requires Blobs(vals) && j <= |vals| && b.cell.isDao == (j in b.sent.mask)
    ensures var r := AllData(k, b, vals, j); !r.shown.unsafe ==> DataSay(vals, j, b, r)
    decreases |vals| - j
  {
    if j < |vals| {
      var b1 := DatumStart(OverDatum(k, b, OutputDatum, vals[j]), j + 1);
      assert AllData(k, b, vals, j) == AllData(k, b1, vals, j + 1);
      DatumStartKeeps(OverDatum(k, b, OutputDatum, vals[j]), j + 1);
      assert b1.cell.isDao == (j + 1 in b1.sent.mask) by { hide OverDatum; }
      hide *;
      DataTag(k, b1, vals, j + 1);
      DataKeeps(k, b1, vals, j + 1);
      if !AllData(k, b, vals, j).shown.unsafe { DatumSay(k, b, vals, j, b1, AllData(k, b, vals, j)); }
    }
  }

  // ---------- The theorems ----------

  /** A transaction whose inputs are in range and whose outputs have key-hash or multisig locks. */
  ghost predicate Ordinary(v: Val) {
    RawForm(v) && AllInRange(InsOf(v)) && AllPlain(OutsOf(v))
  }

  lemma {:induction false} OrdinaryIs(v: Val)
    requires Ordinary(v)
    ensures RawForm(v) && AllInRange(InsOf(v)) && AllPlain(OutsOf(v)) && Countable(v) && Fit(OutsOf(v))
  {
    PlainFits(OutsOf(v));
    hide RawForm, AllInRange, AllPlain, Fit;
  }

  /** What the books say one after the other when the last is not flagged. */
  ghost predicate Unflagged(k: Keys, v: Val)
    requires RawForm(v)
  {
    !AfterInputs(k, v).shown.unsafe && !BeforeOutputsEnd(k, v).shown.unsafe && !AfterData(k, v).shown.unsafe
  }

  lemma {:induction false} UnflaggedBefore(k: Keys, v: Val)
    requires Countable(v) && RawForm(v) && !Accounts(k, v).shown.unsafe
    ensures Unflagged(k, v) && !Rejects(AfterData(k, v)) && Accounts(k, v).shown.tag == Settled(AfterData(k, v))
    ensures Accounts(k, v).sent == AfterData(k, v).sent == OutputsEnd(k, BeforeOutputsEnd(k, v)).sent
    ensures Accounts(k, v).spent == AfterData(k, v).spent == AfterInputs(k, v).spent
  {
    AccountsIs(k, v);
    FinalIs(AfterData(k, v));
    PassesOn(k, v);
    hide Accounts, AfterData, AfterInputs, BeforeOutputsEnd, OutputsEnd, Finalize, Rejects, Settled, Gone, Countable, RawForm;
  }

  lemma {:induction false} BeforeEntries(k: Keys, v: Val)
    requires Ordinary(v) && RawForm(v) && AllPlain(OutsOf(v))
    ensures var r := BeforeOutputsEnd(k, v);
            && Consistent(r)
            && (!r.shown.unsafe ==> r.sent.entries == Compress(Paid(k, OutsOf(v), 0)))
  {
    hide *;
    OrdinaryIs(v);
    BeforeEndIs(k, v);
    InputsPhase(k, v);
    NothingGone(AfterInputs(k, v));
    StartKeeps(AfterInputs(k, v), 0);
    NothingIs();
    if OutsOf(v) == [] { NoPayments(k, OutsOf(v)); } else { Coalesced(k, OutputStart(AfterInputs(k, v), 0), OutsOf(v)); }
  }

  lemma {:induction false} NothingIs()
    ensures NothingSent().entries == [] && NothingSent().mask == {}
  {
  }

  lemma {:induction false} NoPayments(k: Keys, vals: seq<Val>)
    requires vals == [] && AllPlain(vals)
    ensures Compress(Paid(k, vals, 0)) == []
  {
  }

  /** When the outputs have been read without a flag, the destinations to be shown are the run-length
      compression, by key hash and multisig bit, of the payments to other addresses in order. There
      are at most five, and they total the plain output amount. */
  lemma {:induction false} DestinationsShown(k: Keys, v: Val)
    requires Ordinary(v) && RawForm(v) && AllPlain(OutsOf(v))
    ensures var r := BeforeOutputsEnd(k, v);
            !r.shown.unsafe ==>
              && r.sent.entries == Compress(Paid(k, OutsOf(v), 0)) && |r.sent.entries| <= MAX_OUTPUTS
              && r.sent.plain == TotalOf(Paid(k, OutsOf(v), 0))
  {
    BeforeEntries(k, v);
    CompressTotal(Paid(k, OutsOf(v), 0));
    hide BeforeOutputsEnd, TotalOf, Compress, Paid, Ordinary, RawForm, AllPlain;
  }

  /** What all phases say about the operation of an unflagged transaction. */
  lemma {:induction false} PhasesSay(k: Keys, v: Val)
    requires Ordinary(v) && RawForm(v) && AllInRange(InsOf(v)) && AllPlain(OutsOf(v)) && Unflagged(k, v)
    ensures var a, c, b := AfterInputs(k, v), BeforeOutputsEnd(k, v), AfterData(k, v);
            && InputsSay(InsOf(v), 0, NOT_SET, a.shown.tag)
            && (forall i :: i in c.sent.mask <==> Noted(OutsOf(v), 0, i))
            && (forall i | 0 <= i < |OutsOf(v)| && IsDao(OutsOf(v)[i]) :: !GoesOut(k, OutsOf(v)[i]))
            && (c.shown.tag == a.shown.tag || (c.shown.tag == MULTI_OUTPUT && a.shown.tag == NOT_SET))
            && (b.shown.tag == c.shown.tag || c.shown.tag == NOT_SET)
  {
    UnflaggedIs(k, v);
    hide *;
    OrdinaryIs(v);
    AfterInputsTag(k, v);
    MaskSays(k, v);
    TailSays(k, v);
  }

  lemma {:induction false} UnflaggedIs(k: Keys, v: Val)
    requires RawForm(v) && Unflagged(k, v)
    ensures !AfterInputs(k, v).shown.unsafe && !BeforeOutputsEnd(k, v).shown.unsafe && !AfterData(k, v).shown.unsafe
  {
    hide AfterInputs, BeforeOutputsEnd, AfterData;
  }

  lemma {:induction false} MaskSays(k: Keys, v: Val)
    requires Ordinary(v) && RawForm(v) && AllPlain(OutsOf(v)) && !BeforeOutputsEnd(k, v).shown.unsafe
    ensures var a, c := AfterInputs(k, v), BeforeOutputsEnd(k, v);
            && (forall i :: i in c.sent.mask <==> Noted(OutsOf(v), 0, i))
            && (forall i | 0 <= i < |OutsOf(v)| && IsDao(OutsOf(v)[i]) :: !GoesOut(k, OutsOf(v)[i]))
            && (c.shown.tag == a.shown.tag || (c.shown.tag == MULTI_OUTPUT && a.shown.tag == NOT_SET))
            && (OutsOf(v) != [] ==> c.cell == BLANK_CELL.(active := true))
  {
    var a, c, vals := AfterInputs(k, v), BeforeOutputsEnd(k, v), OutsOf(v);
    OrdinaryIs(v);
    BeforeEndIs(k, v);
    InputsPhase(k, v);
    NothingGone(a);
    StartKeeps(a, 0);
    NothingIs();
    if vals != [] {
      hide AfterInputs, BeforeOutputsEnd, OutsOf, AllOutputs, OutputStart, IsDao, GoesOut, Ordinary, RawForm, AllPlain, Fit, CellShapes, Consistent, Gone, Countable;
      OutputsTag(k, OutputStart(a, 0), vals, 0);
      OutputsActive(k, OutputStart(a, 0), vals, 0);
    } else {
      hide AfterInputs, BeforeOutputsEnd, OutsOf, AllOutputs, OutputStart, IsDao, GoesOut, Ordinary, RawForm, AllPlain, Fit, CellShapes, Consistent, Gone, Countable;
    }
  }

  lemma {:induction false} EndTag(k: Keys, b: Book)
    ensures var r := OutputsEnd(k, b); r.shown.tag == b.shown.tag && r.sent.mask == b.sent.mask && r.cell == b.cell
  {
  }

  /** The data of the outputs, from the book before it. */
  lemma {:induction false} DataSays(k: Keys, v: Val)
    requires RawForm(v) && !AfterData(k, v).shown.unsafe
    ensures var c, b := BeforeOutputsEnd(k, v), AfterData(k, v);
            exists d: Book ::
              && d.sent.mask == c.sent.mask && d.shown.tag == c.shown.tag && d.cell.active == c.cell.active && d.cell.nonzero == c.cell.nonzero
              && DataSay(DatasOf(v), 0, d, b)
  {
    hide *;
    var c, e := BeforeOutputsEnd(k, v), OutputsEnd(k, BeforeOutputsEnd(k, v));
    AfterDataIs(k, v);
    EndTag(k, c);
    DatumStartKeeps(e, 0);
    if DatasOf(v) == [] {
      NoData(DatasOf(v), e);
    } else {
      DataTag(k, DatumStart(e, 0), DatasOf(v), 0);
    }
  }

  lemma {:induction false} NoData(vals: seq<Val>, b: Book)
    requires vals == [] && Blobs(vals)
    ensures DataSay(vals, 0, b, b)
  {
  }

  lemma {:induction false} TailSays(k: Keys, v: Val)
    requires RawForm(v) && !AfterData(k, v).shown.unsafe
    ensures var c, b := BeforeOutputsEnd(k, v), AfterData(k, v); b.shown.tag == c.shown.tag || c.shown.tag == NOT_SET
  {
    DataSays(k, v);
    hide AfterData, BeforeOutputsEnd, Blobs, HasNonzero;
  }

  lemma {:induction false} SettledFrom(b: Book, op: Op)
    requires Settled(b) == op && (op == DEPOSIT || op == WITHDRAW || op == PREPARE)
    ensures b.shown.tag == op
    ensures op == WITHDRAW && !Rejects(b) ==> b.sent.dao == 0 && b.sent.plain == 0
    ensures op == PREPARE && !Rejects(b) ==> b.sent.dao == b.spent.dao
  {
  }

  lemma {:induction false} NoDaoInput(vals: seq<Val>, after: Op)
    requires AllInRange(vals) && InputsSay(vals, 0, NOT_SET, after) && after != WITHDRAW && after != PREPARE
    ensures forall i | 0 <= i < |vals| :: !IsDao(SpentCell(vals[i]))
  {
    hide IsDao, SpentCell, SpentDatum, InputShape, InRange, HasNonzero;
  }

  /** The data of the DAO outputs of a deposit. */
  lemma {:induction false} DepositData(k: Keys, v: Val)
    requires Ordinary(v) && RawForm(v) && AllPlain(OutsOf(v)) && Unflagged(k, v) && AfterData(k, v).shown.tag == DEPOSIT
    ensures BeforeOutputsEnd(k, v).shown.tag in [NOT_SET, DEPOSIT]
    ensures forall i | 0 <= i < |OutsOf(v)| && i < |DatasOf(v)| && Noticed(OutsOf(v), i) ::
              |DatasOf(v)[i].bytes| == 8 && !HasNonzero(DatasOf(v)[i].bytes)
  {
    UnflaggedIs(k, v);
    MaskSays(k, v);
    DataSays(k, v);
    var c, b := BeforeOutputsEnd(k, v), AfterData(k, v);
    var d: Book :| d.sent.mask == c.sent.mask && d.shown.tag == c.shown.tag && d.cell.active == c.cell.active
                   && d.cell.nonzero == c.cell.nonzero && DataSay(DatasOf(v), 0, d, b);
    hide *;
    forall i | 0 <= i < |OutsOf(v)| && i < |DatasOf(v)| && Noticed(OutsOf(v), i)
      ensures |DatasOf(v)[i].bytes| == 8 && !HasNonzero(DatasOf(v)[i].bytes)
    {
      NoticedDao(OutsOf(v), i);
      assert i in d.sent.mask;
      DepositDatum(DatasOf(v), d, b, i);
    }
    DepositTag(DatasOf(v), d, b);
  }

  lemma {:induction false} NoticedDao(vals: seq<Val>, i: nat)
    requires AllPlain(vals) && i < |vals| && Noticed(vals, i)
    ensures IsDao(vals[i]) && Noted(vals, 0, i)
  {
    hide IsDao, CellShape, Plain;
  }

  lemma {:induction false} DepositDatum(vals: seq<Val>, d: Book, b: Book, i: nat)
    requires Blobs(vals) && DataSay(vals, 0, d, b) && b.shown.tag == DEPOSIT && d.cell.active && i < |vals| && i in d.sent.mask
    ensures |vals[i].bytes| == 8 && !HasNonzero(vals[i].bytes)
  {
    hide HasNonzero;
  }

  lemma {:induction false} DepositTag(vals: seq<Val>, d: Book, b: Book)
    requires Blobs(vals) && DataSay(vals, 0, d, b) && b.shown.tag == DEPOSIT
    ensures d.shown.tag == NOT_SET || d.shown.tag == DEPOSIT
  {
    hide HasNonzero;
  }

  /** An accepted DAO deposit spends no DAO cell, and each of its DAO outputs is locked by our change
      address and, if the mask has room for it, carries 8 zero bytes of data. */
  lemma {:induction false} DepositAccepted(k: Keys, v: Val)
    requires Ordinary(v) && RawForm(v) && AllInRange(InsOf(v)) && AllPlain(OutsOf(v))
    requires !Accounts(k, v).shown.unsafe && Accounts(k, v).shown.tag == DEPOSIT
    ensures forall i | 0 <= i < |InsOf(v)| :: !IsDao(SpentCell(InsOf(v)[i]))
    ensures forall i | 0 <= i < |OutsOf(v)| && IsDao(OutsOf(v)[i]) :: !GoesOut(k, OutsOf(v)[i])
    ensures forall i | 0 <= i < |OutsOf(v)| && i < |DatasOf(v)| && Noticed(OutsOf(v), i) ::
              |DatasOf(v)[i].bytes| == 8 && !HasNonzero(DatasOf(v)[i].bytes)
  {
    hide *;
    OrdinaryIs(v);
    UnflaggedBefore(k, v);
    SettledFrom(AfterData(k, v), DEPOSIT);
    PhasesSay(k, v);
    DepositData(k, v);
    NoDaoInput(InsOf(v), AfterInputs(k, v).shown.tag);
  }

  lemma {:induction false} WithdrawInputs(vals: seq<Val>)
    requires AllInRange(vals) && InputsSay(vals, 0, NOT_SET, WITHDRAW)
    ensures forall i | 0 <= i < |vals| && IsDao(SpentCell(vals[i])) :: |SpentDatum(vals[i])| == 8 && HasNonzero(SpentDatum(vals[i]))
    ensures exists i | 0 <= i < |vals| :: IsDao(SpentCell(vals[i]))
  {
    hide IsDao, SpentCell, SpentDatum, InputShape, InRange, HasNonzero;
  }

  /** No DAO output can follow the inputs of a withdrawal: its data would call it something else. */
  lemma {:induction false} WithdrawData(k: Keys, v: Val)
    requires Ordinary(v) && RawForm(v) && AllPlain(OutsOf(v)) && Unflagged(k, v) && AfterData(k, v).shown.tag == WITHDRAW
    ensures BeforeOutputsEnd(k, v).shown.tag == WITHDRAW
    ensures forall i | 0 <= i < |OutsOf(v)| && i < |DatasOf(v)| :: !Noticed(OutsOf(v), i)
  {
    UnflaggedIs(k, v);
    MaskSays(k, v);
    DataSays(k, v);
    var c, b := BeforeOutputsEnd(k, v), AfterData(k, v);
    var d: Book :| d.sent.mask == c.sent.mask && d.shown.tag == c.shown.tag && d.cell.active == c.cell.active
                   && d.cell.nonzero == c.cell.nonzero && DataSay(DatasOf(v), 0, d, b);
    hide *;
    NoDaoData(DatasOf(v), d, b);
    forall i | 0 <= i < |OutsOf(v)| && i < |DatasOf(v)| ensures !Noticed(OutsOf(v), i) {
      if Noticed(OutsOf(v), i) { NoticedDao(OutsOf(v), i); }
    }
  }

  lemma {:induction false} NoDaoData(vals: seq<Val>, d: Book, b: Book)
    requires Blobs(vals) && DataSay(vals, 0, d, b) && b.shown.tag == WITHDRAW
    ensures d.shown.tag == WITHDRAW && forall i | 0 <= i < |vals| :: i !in d.sent.mask
  {
    hide HasNonzero, Blobs;
  }

  /** An accepted DAO withdrawal spends at least one DAO cell, every DAO cell it spends carries 8 bytes
      of data that are not all zero, none of its outputs is a DAO cell that the mask has room for, and
      its DAO outputs and what it sends to other addresses total 0. */
  lemma {:induction false} WithdrawAccepted(k: Keys, v: Val)
    requires Ordinary(v) && RawForm(v) && AllInRange(InsOf(v)) && AllPlain(OutsOf(v))
    requires !Accounts(k, v).shown.unsafe && Accounts(k, v).shown.tag == WITHDRAW
    ensures exists i | 0 <= i < |InsOf(v)| :: IsDao(SpentCell(InsOf(v)[i]))
    ensures forall i | 0 <= i < |InsOf(v)| && IsDao(SpentCell(InsOf(v)[i])) ::
              |SpentDatum(InsOf(v)[i])| == 8 && HasNonzero(SpentDatum(InsOf(v)[i]))
    ensures forall i | 0 <= i < |OutsOf(v)| && i < |DatasOf(v)| :: !Noticed(OutsOf(v), i)
    ensures Accounts(k, v).sent.dao == 0 && Accounts(k, v).sent.plain == 0
  {
    hide *;
    OrdinaryIs(v);
    UnflaggedBefore(k, v);
    SettledFrom(AfterData(k, v), WITHDRAW);
    PhasesSay(k, v);
    WithdrawData(k, v);
    WithdrawInputs(InsOf(v));
  }

  // ---------- Sources ----------

  lemma {:induction false} FewInputs(v: Val)
    requires RawForm(v)
    ensures |InsOf(v)| + 1 < U32_SIZE
  {
    RawKnown(v);
    assert InsOf(v) == v.vals[3].vals by { hide Typed, Encode, InputShapes, CellShapes, Blobs; }
    hide *;
    RawFields();
    Field(AnnotatedRaw(), v, 3);
    D.InputsLength(v.vals[3]);
  }

  /** For 20-byte lock arguments: an unflagged transaction has as many sources as the lock argument of
      its inputs changes, starting from zeros; ours is at most one of them, and its number is kept. */
  lemma {:induction false} SourcesCounted(k: Keys, v: Val)
    requires Ordinary(v) && RawForm(v) && AllStandard(InsOf(v)) && !Accounts(k, v).shown.unsafe
    ensures var sources := Changes(KeysFrom(InsOf(v), 0), Zero(20));
            && AfterInputs(k, v).spent.distinct == |sources|
            && Numbered(sources, k.current, 0, AfterInputs(k, v).shown.signedAt)
  {
    hide *;
    OrdinaryIs(v);
    UnflaggedBefore(k, v);
    UnflaggedIs(k, v);
    FewInputs(v);
    Fresh();
    AfterInputsIs(k, v);
    InputsBookIs(k, InsOf(v));
    FinishKeeps(InputsBook(k, InsOf(v)));
    var b := InputStart(InputsStart(Cleared()));
    if InsOf(v) == [] {
      NoSourcesAtAll(k, InsOf(v));
    } else {
      InputsLocated(k, b, InsOf(v), 0);
      LocatedFresh(k, b, AllInputs(k, b, InsOf(v), 0), Changes(KeysFrom(InsOf(v), 0), Zero(20)));
    }
  }

  lemma {:induction false} NoSourcesAtAll(k: Keys, vals: seq<Val>)
    requires vals == [] && InputShapes(vals) && AllInRange(vals)
    ensures var r, sources := InputsBook(k, vals), Changes(KeysFrom(vals, 0), Zero(20));
            r.spent.distinct == |sources| && Numbered(sources, k.current, 0, r.shown.signedAt)
  {
  }

  lemma {:induction false} LocatedFresh(k: Keys, b: Book, r: Book, sources: seq<Hash20>)
    requires b.shown.signedAt == 0 && b.spent.distinct == 0 && Located(k, b, r, sources)
    ensures r.spent.distinct == |sources| && Numbered(sources, k.current, 0, r.shown.signedAt)
  {
    hide Numbered;
  }
}
