/** What the user is shown, for a whole transaction that is not flagged. */
module Accounting {
  import opened Words
  import opened Schema
  import opened Automaton
  import opened Encoding
  import opened Chunking
  import opened Transaction
  import opened Ledger
  import opened LedgerCells
  import opened LedgerRuns
  import opened LedgerTotal
  import opened Spending
  import opened Inputs
  import opened Conservation
  import opened Grouping
  import opened Payments
  import opened Sources

  // ---------- The operation is settled once ----------

  /** The operation stays, or was undetermined, or the transaction is flagged; a flag stays. */
  predicate Settles(b: Book, r: Book) {
    && (b.shown.unsafe ==> r.shown.unsafe)
    && (r.shown.tag == b.shown.tag || b.shown.tag == NOT_SET || r.shown.unsafe)
  }

  lemma {:induction false} PaySettles(b: Book)
    ensures Settles(b, Pay(b))
  {
    hide Credit, SamePlace;
  }

  lemma {:induction false} OutputSettles(b: Book)
    ensures Settles(b, OutputEnd(b))
  {
    PaySettles(b);
    hide Pay, Add64;
  }

  lemma {:induction false} OutputsSettle(k: Keys, b: Book)
    ensures Settles(b, OutputsEnd(k, b))
  {
    hide Zero;
  }

  lemma {:induction false} DatumSettles(k: Keys, b: Book)
    ensures Settles(b, OutputData(k, b))
  {
  }

  lemma {:induction false} LockSettles(b: Book)
    ensures Settles(b, LockEnd(b))
  {
  }

  lemma {:induction false} DaoInputSettles(b: Book)
    ensures Settles(b, DaoInput(b))
  {
    hide Add64;
  }

  lemma {:induction false} InputSettles(k: Keys, b: Book)
    ensures Settles(b, LockEnd(b)) && Settles(b, InputData(k, b))
  {
    LockSettles(b);
    DaoInputSettles(b);
    hide LockEnd, DaoInput, Add64;
  }

  lemma {:induction false} EndSettles(k: Keys, b: Book, t: Tag)
    requires t != RawTx
    ensures Settles(b, OnEnd(k, b, t))
  {
    InputSettles(k, b);
    OutputSettles(b);
    OutputsSettle(k, b);
    DatumSettles(k, b);
    hide LockEnd, InputData, OutputEnd, OutputsEnd, OutputData, Finalize;
  }

  lemma {:induction false} DataSettles(k: Keys, b: Book, t: Tag, bs: seq<u8>)
    ensures Settles(b, OnLeaf(k, b, t, bs)) && Settles(b, OnBody(k, b, t, bs))
  {
    hide DefaultLock, MultisigLock, DaoType, Splice, Differs, HasNonzero, Unpack, Unpack64, Expected;
  }

  /** No callback but the last moves the operation, except from undetermined, without a flag. */
  lemma {:induction false} TagStep(k: Keys, b: Book, e: Event)
    requires e != End(RawTx)
    ensures Settles(b, Apply(k, b, e))
  {
    match e {
      case End(t) => EndSettles(k, b, t);
      case Leaf(t, bs) => DataSettles(k, b, t, bs);
      case Body(t, bs) => DataSettles(k, b, t, bs);
      case _ =>
    }
    hide OnLeaf, OnBody, OnEnd, Zero;
  }

  /** Whatever the callbacks, an unflagged transaction's operation leaves undetermined at most once:
      it is that of any moment at which it was determined. */
  lemma {:induction false} TagSettles(k: Keys, b: Book, ev: seq<Event>)
    requires End(RawTx) !in ev
    ensures Settles(b, Run(k, b, ev))
    decreases |ev|
  {
    if ev != [] {
      TagStep(k, b, ev[0]);
      hide Apply;
      TagSettles(k, Apply(k, b, ev[0]), ev[1..]);
    }
  }

  // ---------- The phases ----------

  ghost function InsOf(v: Val): (vals: seq<Val>)
    requires RawForm(v)
    ensures InputShapes(vals)
  {
    v.vals[3].vals
  }

  ghost function OutsOf(v: Val): (vals: seq<Val>)
    requires RawForm(v)
    ensures CellShapes(vals)
  {
    v.vals[4].vals
  }

  ghost function DatasOf(v: Val): (vals: seq<Val>)
    requires RawForm(v)
    ensures Blobs(vals)
  {
    v.vals[5].vals
  }

  /** The accounts are about inputs in range and outputs whose lock arguments fit. */
  ghost predicate Countable(v: Val) {
    && RawForm(v) && AllInRange(InsOf(v)) && Fit(OutsOf(v))
  }

  lemma {:induction false} Fresh()
    ensures var b := InputStart(InputsStart(Cleared()));
            && b == InputStart(b) && b.spent == Spent(0, 0, 0, 0, false) && b.sent == NothingSent() && !b.thrown && !b.long
            && b.shown == Cleared().shown && !b.shown.hasDest && !b.shown.hasChange && !b.shown.unsafe && b.shown.tag == NOT_SET && b.shown.signedAt == 0 && b.src.last == Zero(20)
            && Held(b) == 0
  {
  }

  lemma {:induction false} InputsPhase(k: Keys, v: Val)
    requires RawForm(v) && AllInRange(InsOf(v))
    ensures var r := AfterInputs(k, v);
            && r.sent == NothingSent() && !r.thrown && !r.long && !r.shown.hasDest && !r.shown.hasChange
            && (!r.shown.unsafe ==> Held(r) == Mod64(SpentSum(InsOf(v), 0)))
  {
    Fresh();
    AfterInputsIs(k, v);
    InputsRead(k, InsOf(v));
    FinishKeeps(InputsBook(k, InsOf(v)));
    hide *;
  }

  /** The book when all inputs have been read. */
  ghost function InputsBook(k: Keys, vals: seq<Val>): Book
    requires InputShapes(vals)
  {
    if vals == [] then InputsStart(Cleared()) else AllInputs(k, InputStart(InputsStart(Cleared())), vals, 0)
  }

  lemma {:induction false} InputsRead(k: Keys, vals: seq<Val>)
    requires AllInRange(vals) && InputShapes(vals)
    ensures var r := InputsBook(k, vals);
            !r.thrown && !r.long && !r.shown.hasDest && !r.shown.hasChange && (!r.shown.unsafe ==> Held(r) == Mod64(SpentSum(vals, 0)))
  {
    hide *;
    Fresh();
    InputsBookIs(k, vals);
    InputsDone(k, Cleared(), vals);
    if vals != [] { InputsHeld(k, InputStart(InputsStart(Cleared())), vals, 0); }
  }

  lemma {:induction false} InputsBookIs(k: Keys, vals: seq<Val>)
    requires InputShapes(vals)
    ensures vals != [] ==> InputsBook(k, vals) == AllInputs(k, InputStart(InputsStart(Cleared())), vals, 0)
    ensures vals == [] ==> var r := InputsBook(k, vals);
            !r.thrown && !r.long && Held(r) == Mod64(0) && !r.shown.hasDest && !r.shown.hasChange
    ensures Mod64(0 + SpentSum([], 0)) == Mod64(0)
  {
    hide AllInputs, InputShapes;
  }

  lemma {:induction false} CountableIs(v: Val)
    requires Countable(v)
    ensures RawForm(v) && AllInRange(InsOf(v)) && Fit(OutsOf(v))
  {
  }

  lemma {:induction false} FinishKeeps(b: Book)
    ensures var r := FinishInputs(b); r.spent == b.spent && r.shown == b.shown && r.thrown == b.thrown && r.long == b.long
    ensures FinishInputs(b).sent == NothingSent() && Held(FinishInputs(b)) == Held(b)
  {
  }

  lemma {:induction false} AfterInputsIs(k: Keys, v: Val)
    requires RawForm(v)
    ensures InputShapes(InsOf(v)) && AfterInputs(k, v) == FinishInputs(InputsBook(k, InsOf(v)))
  {
    hide AllInputs, FinishInputs, InputShapes, CellShapes, Blobs, Typed, Encode, InputsStart, InputStart, Cleared;
  }

  lemma {:induction false} NothingGone(b: Book)
    requires b.sent == NothingSent() && !b.thrown && !b.shown.hasDest
    ensures Consistent(b) && Gone(b) == 0
  {
  }

  lemma {:induction false} BeforeEndIs(k: Keys, v: Val)
    requires RawForm(v)
    ensures CellShapes(OutsOf(v))
    ensures BeforeOutputsEnd(k, v) == if OutsOf(v) == [] then AfterInputs(k, v) else AllOutputs(k, OutputStart(AfterInputs(k, v), 0), OutsOf(v), 0)
  {
    hide AllOutputs, OutputStart, AfterInputs, CellShapes, InputShapes, Blobs, Typed, Encode;
  }

  lemma {:induction false} OutputsPhase(k: Keys, v: Val)
    requires Countable(v)
    ensures var a, r := AfterInputs(k, v), BeforeOutputsEnd(k, v);
            && Consistent(r) && r.spent == a.spent && !r.long && (a.shown.unsafe ==> r.shown.unsafe)
            && (!r.shown.unsafe ==> Gone(r) == Mod64(OutSum(OutsOf(v), 0)))
  {
    CountableIs(v);
    BeforeEndIs(k, v);
    hide *;
    InputsPhase(k, v);
    OutputsRead(k, AfterInputs(k, v), OutsOf(v));
  }

  lemma {:induction false} OutputsRead(k: Keys, a: Book, vals: seq<Val>)
    requires CellShapes(vals) && Fit(vals) && a.sent == NothingSent() && !a.thrown && !a.shown.hasDest && !a.long
    ensures var r := if vals == [] then a else AllOutputs(k, OutputStart(a, 0), vals, 0);
            && Consistent(r) && r.spent == a.spent && !r.long && (a.shown.unsafe ==> r.shown.unsafe)
            && (!r.shown.unsafe ==> Gone(r) == Mod64(OutSum(vals, 0)))
  {
    hide *;
    NothingGone(a);
    OutputsDone(k, a, vals);
    if vals != [] {
      StartKeeps(a, 0);
      OutputsGone(k, OutputStart(a, 0), vals, 0);
    }
  }

  /** Swapping change and outputs in a self transfer keeps the total, and none of the internal checks
      of `outputs_end` fails. */
  lemma {:induction false} OutputsEndKeeps(k: Keys, b: Book)
    requires Consistent(b)
    ensures var r := OutputsEnd(k, b);
            && Gone(r) == Gone(b) && r.spent == b.spent && !r.thrown && r.long == b.long && r.shown.unsafe == b.shown.unsafe
            && r.shown.tag == b.shown.tag && r.sent.mask == b.sent.mask && r.sent.dao == b.sent.dao && r.cell == b.cell
  {
    hide TotalOf, Zero;
  }

  // ---------- Data of the outputs ----------

  /** An item of data, when an output's is expected. */
  lemma {:induction false} OutputDatumIs(k: Keys, b: Book, d: seq<u8>)
    requires |d| + 4 < U32_SIZE
    ensures var r := OverDatum(k, b, OutputDatum, Blob(d));
            && r.sent == b.sent && r.spent == b.spent && r.thrown == b.thrown && r.long == b.long && (b.shown.unsafe ==> r.shown.unsafe)
            && r.cell.active == b.cell.active && r.cell.nonzero == (b.cell.nonzero || (b.cell.active && HasNonzero(d)))
            && (!r.shown.unsafe ==>
                 if b.cell.isDao then
                   var op := if r.cell.nonzero then PREPARE else DEPOSIT;
                   |d| == 8 && r.shown.tag == op && (b.shown.tag == NOT_SET || b.shown.tag == op)
                 else r.shown.tag == b.shown.tag)
  {
    hide HasNonzero;
  }

  lemma {:induction false} DataKeeps(k: Keys, b: Book, vals: seq<Val>, j: nat)
    requires Blobs(vals) && j <= |vals|
    ensures var r := AllData(k, b, vals, j);
            r.sent == b.sent && r.spent == b.spent && r.thrown == b.thrown && r.long == b.long && (b.shown.unsafe ==> r.shown.unsafe)
    decreases |vals| - j
  {
    hide *;
    if j < |vals| {
      DataStep(k, b, vals, j);
      OutputDatumIs(k, b, vals[j].bytes);
      DatumStartKeeps(OverDatum(k, b, OutputDatum, vals[j]), j + 1);
      DataKeeps(k, DatumStart(OverDatum(k, b, OutputDatum, vals[j]), j + 1), vals, j + 1);
    } else {
      DataDone(k, b, vals);
    }
  }

  lemma {:induction false} DataDone(k: Keys, b: Book, vals: seq<Val>)
    requires Blobs(vals)
    ensures AllData(k, b, vals, |vals|) == b
  {
  }

  lemma {:induction false} DataStep(k: Keys, b: Book, vals: seq<Val>, j: nat)
    requires Blobs(vals) && j < |vals|
    ensures vals[j] == Blob(vals[j].bytes) && |vals[j].bytes| + 4 < U32_SIZE
    ensures AllData(k, b, vals, j) == AllData(k, DatumStart(OverDatum(k, b, OutputDatum, vals[j]), j + 1), vals, j + 1)
  {
    hide OverDatum, DatumStart;
  }

  lemma {:induction false} AfterDataIs(k: Keys, v: Val)
    requires RawForm(v)
    ensures var b := OutputsEnd(k, BeforeOutputsEnd(k, v));
            && Blobs(DatasOf(v))
            && AfterData(k, v) == if DatasOf(v) == [] then b else AllData(k, DatumStart(b, 0), DatasOf(v), 0)
  {
    hide AllData, OutputsEnd, BeforeOutputsEnd, DatumStart, CellShapes, InputShapes, Blobs, Typed, Encode;
  }

  lemma {:induction false} DatumStartKeeps(b: Book, j: nat)
    ensures var r := DatumStart(b, j);
            && r.sent == b.sent && r.spent == b.spent && r.thrown == b.thrown && r.long == b.long && r.shown == b.shown
            && r.cell.active == b.cell.active && r.cell.nonzero == b.cell.nonzero && (r.cell.isDao <==> j in b.sent.mask)
  {
  }

  lemma {:induction false} DataPhase(k: Keys, v: Val)
    requires RawForm(v)
    ensures var b, r := OutputsEnd(k, BeforeOutputsEnd(k, v)), AfterData(k, v);
            r.sent == b.sent && r.spent == b.spent && r.thrown == b.thrown && r.long == b.long && (b.shown.unsafe ==> r.shown.unsafe)
  {
    hide *;
    AfterDataIs(k, v);
    DatumStartKeeps(OutputsEnd(k, BeforeOutputsEnd(k, v)), 0);
    if DatasOf(v) != [] { DataKeeps(k, DatumStart(OutputsEnd(k, BeforeOutputsEnd(k, v)), 0), DatasOf(v), 0); }
  }

  // ---------- The fee ----------

  lemma {:induction false} FinalIs(b: Book)
    ensures var r := Finalize(b);
            && (b.shown.unsafe ==> r.shown.unsafe) && r.thrown == b.thrown && r.long == b.long && r.sent == b.sent && r.spent == b.spent
            && (!r.shown.unsafe ==>
                 && !Rejects(b) && r.shown.tag == Settled(b) && r.shown.fee == if r.shown.tag == WITHDRAW then Sub64(0, Balance(b)) else Balance(b))
  {
    hide Rejects, Settled, Balance, Sub64;
  }

  lemma {:induction false} FeeIs(b: Book, ins: int, outs: int)
    requires Held(b) == Mod64(ins) && Gone(b) == Mod64(outs)
    ensures Balance(b) == Mod64(ins - outs) && Sub64(0, Balance(b)) == Mod64(outs - ins)
  {
    AddIsMod(Held(b), Gone(b));
    ModSub(ins, outs);
    AddIsMod(0, Balance(b));
    ModSub(0, ins - outs);
    assert Mod64(0) == 0;
    hide Mod64, Sub64, Add64;
  }

  lemma {:induction false} ModSub(a: int, b: int)
    ensures Mod64(Mod64(a) - Mod64(b)) == Mod64(a - b)
  {
  }

  /** Value is conserved. If a transaction whose inputs are in range is not flagged, the fee shown is
      the sum of the capacities of all inputs minus that of all outputs, modulo 2^64, and its negation
      for a DAO withdrawal. None of the consistency checks ever fails. */
  lemma {:induction false} ValueConserved(k: Keys, v: Val)
    requires Countable(v)
    ensures var r, ins, outs := Accounts(k, v), SpentSum(InsOf(v), 0), OutSum(OutsOf(v), 0);
            && !r.thrown && !r.long
            && (!r.shown.unsafe ==> r.shown.fee == Mod64(if r.shown.tag == WITHDRAW then outs - ins else ins - outs))
  {
    hide *;
    CountableIs(v);
    AccountsIs(k, v);
    Phases(k, v);
    Closing(AfterInputs(k, v), BeforeOutputsEnd(k, v), OutputsEnd(k, BeforeOutputsEnd(k, v)), AfterData(k, v),
            SpentSum(InsOf(v), 0), OutSum(OutsOf(v), 0));
  }

  lemma {:induction false} Phases(k: Keys, v: Val)
    requires Countable(v)
    ensures RawForm(v)
    ensures Passes(AfterInputs(k, v), BeforeOutputsEnd(k, v), OutputsEnd(k, BeforeOutputsEnd(k, v)), AfterData(k, v))
    ensures !AfterInputs(k, v).shown.unsafe ==> Held(AfterInputs(k, v)) == Mod64(SpentSum(InsOf(v), 0))
    ensures !BeforeOutputsEnd(k, v).shown.unsafe ==> Gone(BeforeOutputsEnd(k, v)) == Mod64(OutSum(OutsOf(v), 0))
  {
    hide *;
    CountableIs(v);
    InputsPhase(k, v);
    OutputsPhase(k, v);
    PassesOn(k, v);
  }

  lemma {:induction false} PassesOn(k: Keys, v: Val)
    requires Countable(v) && RawForm(v)
    ensures Passes(AfterInputs(k, v), BeforeOutputsEnd(k, v), OutputsEnd(k, BeforeOutputsEnd(k, v)), AfterData(k, v))
  {
    OutputsPhase(k, v);
    OutputsEndKeeps(k, BeforeOutputsEnd(k, v));
    DataPhase(k, v);
    hide AfterInputs, BeforeOutputsEnd, OutputsEnd, AfterData, Gone, Consistent, Countable, RawForm, Mod64, OutSum;
  }

  /** The books after the inputs, before and after the end of the outputs, and after the data. */
  ghost predicate Passes(a: Book, c: Book, e: Book, b: Book) {
    && (a.shown.unsafe ==> c.shown.unsafe) && c.shown.unsafe == e.shown.unsafe && (e.shown.unsafe ==> b.shown.unsafe)
    && a.spent == c.spent == e.spent == b.spent && Gone(c) == Gone(e) && e.sent == b.sent && !b.thrown && !b.long
  }

  /** The totals reach the end unchanged. */
  lemma {:induction false} Closing(a: Book, c: Book, e: Book, b: Book, ins: int, outs: int)
    requires Passes(a, c, e, b)
    requires !a.shown.unsafe ==> Held(a) == Mod64(ins)
    requires !c.shown.unsafe ==> Gone(c) == Mod64(outs)
    ensures var r := Finalize(b);
            !r.thrown && !r.long && (!r.shown.unsafe ==> r.shown.fee == Mod64(if r.shown.tag == WITHDRAW then outs - ins else ins - outs))
  {
    FinalIs(b);
    SameTotals(a, e, b);
    assert !b.shown.unsafe ==> Held(b) == Mod64(ins) && Gone(b) == Mod64(outs) by { hide Held, Gone, Mod64; }
    assert !b.thrown && !b.long;
    hide *;
    if !Finalize(b).shown.unsafe { FeeIs(b, ins, outs); }
  }

  lemma {:induction false} AccountsIs(k: Keys, v: Val)
    requires RawForm(v)
    ensures Accounts(k, v) == Finalize(AfterData(k, v))
  {
    hide Finalize, AfterData, RawForm;
  }

  lemma {:induction false} SameTotals(a: Book, e: Book, b: Book)
    ensures b.spent == a.spent ==> Held(b) == Held(a)
    ensures b.sent == e.sent ==> Gone(b) == Gone(e)
  {
  }

  /** When neither sum overflows, the fee is exact if nothing is created, and so is the return that is
      shown for a withdrawal, if something is. */
  lemma {:induction false} FeeExact(k: Keys, v: Val)
    requires Countable(v) && !Accounts(k, v).shown.unsafe
    ensures var r, ins, outs := Accounts(k, v), SpentSum(InsOf(v), 0), OutSum(OutsOf(v), 0);
            && (r.shown.tag != WITHDRAW && outs <= ins < U64_SIZE ==> r.shown.fee == ins - outs)
            && (r.shown.tag == WITHDRAW && ins <= outs < U64_SIZE ==> r.shown.fee == outs - ins)
  {
    hide *;
    CountableIs(v);
    var ins, outs := SpentSum(InsOf(v), 0), OutSum(OutsOf(v), 0);
    if outs <= ins < U64_SIZE { ModSmall(ins - outs); }
    if ins <= outs < U64_SIZE { ModSmall(outs - ins); }
    ValueConserved(k, v);
  }

  lemma {:induction false} ModSmall(n: nat)
    requires n < U64_SIZE
    ensures Mod64(n) == n
  {
  }

  /** However a message arrives, what is shown is the account of its cells. */
  lemma {:induction false} ShownWhole(k: Keys, v: Val, chunks: seq<seq<u8>>)
    requires Typed(AnnotatedTx(), v) && |Encode(AnnotatedTx(), v)| < U32_SIZE && Countable(RawOf(v))
    requires chunks != [] && Join(chunks) == Encode(AnnotatedTx(), v)
    ensures var r := Feed(AnnotatedTx(), NUM_MAX, Init(AnnotatedTx()), chunks);
            r.rv == COMPLETE && Run(k, Cleared(), r.ev) == Accounts(k, RawOf(v))
  {
    hide *;
    CountableIs(RawOf(v));
    ValueConserved(k, RawOf(v));
    AccountsWhole(k, v, chunks);
  }
}
