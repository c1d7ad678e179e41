/** The fee that is shown is the sum of the inputs minus the sum of the outputs. */
module Conservation {
  import opened Words
  import opened Schema
  import opened Automaton
  import opened Encoding
  import opened Transaction
  import opened Ledger
  import opened LedgerCells
  import opened LedgerRuns
  import opened LedgerTotal
  import opened Spending
  import opened Inputs

  // ---------- Sums modulo 2^64 ----------

  function Mod64(n: int): u64 {
    n % U64_SIZE
  }

  lemma {:induction false} ModAdd(a: int, b: int)
    ensures Mod64(Mod64(a) + b) == Mod64(a + b) == Mod64(a + Mod64(b))
  {
  }

  lemma {:induction false} AddIsMod(a: u64, b: u64)
    ensures Add64(a, b) == Mod64(a + b) && Sub64(a, b) == Mod64(a - b)
  {
  }

  // ---------- One input ----------

  /** What an input leaves alone, and that a flag stays. */
  lemma {:induction false} EndEffect(b: Book)
    ensures var r := LockEnd(b);
            && r.spent == b.spent.(distinct := r.spent.distinct) && r.sent == b.sent && r.cell == b.cell && r.arg == b.arg
            && r.shown == b.shown.(unsafe := r.shown.unsafe, signedAt := r.shown.signedAt) && (b.shown.unsafe ==> r.shown.unsafe)
            && r.owner == b.owner && r.thrown == b.thrown && r.long == b.long
  {
  }

  /** The operation a DAO input belongs to. */
  function DaoOp(nonzero: bool): Op {
    if nonzero then WITHDRAW else PREPARE
  }

  lemma {:induction false} DataEffect(k: Keys, b: Book)
    requires b.cell.active
    ensures var r, c := InputData(k, b), b.cell;
            && (b.shown.unsafe ==> r.shown.unsafe) && r.sent == b.sent && r.src == b.src && r.thrown == b.thrown && r.long == b.long
            && r.shown.hasDest == b.shown.hasDest && r.shown.hasChange == b.shown.hasChange
            && (!r.shown.unsafe ==>
                 if c.isDao then
                   && c.dataSize == 8 && r.spent == b.spent.(dao := Add64(b.spent.dao, c.capacity))
                   && r.shown == b.shown.(tag := DaoOp(c.nonzero)) && (b.shown.tag == NOT_SET || b.shown.tag == DaoOp(c.nonzero))
                 else
                   && r.shown == b.shown.(contract := r.shown.contract)
                   && r.spent == Spent(b.spent.distinct, if c.nonequal then b.spent.mine else Add64(b.spent.mine, c.capacity),
                                       Add64(b.spent.plain, c.capacity), b.spent.dao, b.spent.multisig || c.isMultisig))
  {
    DaoEffect(b);
    hide DaoInput, Add64, DaoOp;
  }

  lemma {:induction false} DaoEffect(b: Book)
    ensures var r, c := DaoInput(b), b.cell;
            && (b.shown.unsafe ==> r.shown.unsafe) && r.sent == b.sent && r.src == b.src && r.thrown == b.thrown && r.long == b.long
            && r.shown.hasDest == b.shown.hasDest && r.shown.hasChange == b.shown.hasChange
            && (!r.shown.unsafe ==>
                 && c.dataSize == 8 && r.spent == b.spent.(dao := Add64(b.spent.dao, c.capacity))
                 && r.shown == b.shown.(tag := DaoOp(c.nonzero)) && (b.shown.tag == NOT_SET || b.shown.tag == DaoOp(c.nonzero)))
  {
    DaoIs(b);
    hide DaoInput, Become, Add64;
  }

  lemma {:induction false} DaoIs(b: Book)
    ensures var spent, op := b.spent.(dao := Add64(b.spent.dao, b.cell.capacity)), DaoOp(b.cell.nonzero);
            DaoInput(b) == if b.cell.dataSize != 8 then Reject(b.(owner := b.arg[..20]))
                           else if b.shown.tag != op && b.shown.tag != NOT_SET then Reject(b.(owner := b.arg[..20], spent := spent))
                           else b.(owner := b.arg[..20], spent := spent, shown := b.shown.(tag := op))
  {
    hide Add64;
  }

  /** The spent cell with its data. */
  function WithData(k: Keys, c: Val, d: seq<u8>): CellState
    requires CellShape(c)
  {
    InputCell(k, c).(dataSize := if |d| < 15 then |d| else 15, nonzero := HasNonzero(d))
  }

  function Locked(k: Keys, b: Book, c: Val): Book
    requires CellShape(c) && |ArgsOf(c)| <= ARG_MAX
  {
    LockEnd(AtLock(k, SetActive(b, true), c))
  }

  /** A book between two inputs. */
  predicate Tidy(b: Book) {
    b.cell == BLANK_CELL && b.arg == Zero(ARG_MAX)
  }

  lemma {:induction false} SpendIs(k: Keys, b: Book, c: Val, d: seq<u8>)
    requires CellShape(c) && |ArgsOf(c)| <= ARG_MAX && |d| + 4 < U32_SIZE && Tidy(b)
    ensures Spend(k, b, c, d) == InputData(k, Flag(Locked(k, b, c).(cell := WithData(k, c, d)), OddType(k, c)))
  {
    var x := Flag(Locked(k, b, c).(cell := InputCell(k, c)), OddType(k, c));
    InputIs(k, SetActive(b, true), c);
    DatumIs(x, d);
    assert x.cell == InputCell(k, c) by { hide Locked, InputCell, OddType, CellShape; }
    assert DataPiece(DataSize(x, |d| + 4), d) == Flag(Locked(k, b, c).(cell := WithData(k, c, d)), OddType(k, c)) by {
      hide Locked, OddType, CellShape, DataPiece, DataSize, IsDao, IsMultisig, Foreign, Amount, ArgsOf, HasNonzero;
    }
    hide OverCell, InputData, DataPiece, DataSize, CellShape, Locked, OddType, WithData, InputCell, LockEnd, AtLock;
  }

  lemma {:induction false} DatumIs(x: Book, d: seq<u8>)
    requires x.cell.active && !x.cell.nonzero && |d| + 4 < U32_SIZE
    ensures DataPiece(DataSize(x, |d| + 4), d)
         == x.(cell := x.cell.(dataSize := if |d| < 15 then |d| else 15, nonzero := HasNonzero(d)))
  {
    hide HasNonzero;
  }

  /** What an input changes, unless it flags the transaction. */
  ghost predicate Charged(k: Keys, b: Book, c: Val, d: seq<u8>, r: Book)
    requires CellShape(c)
  {
    var s := r.spent;
    && !b.shown.unsafe
    && if IsDao(c) then
         && |d| == 8 && s == b.spent.(distinct := s.distinct, dao := Add64(b.spent.dao, Amount(c)))
         && (b.shown.tag == NOT_SET || b.shown.tag == DaoOp(HasNonzero(d)))
         && r.shown == b.shown.(tag := DaoOp(HasNonzero(d)), signedAt := r.shown.signedAt)
       else
         && s == Spent(s.distinct, if Foreign(k, c) then b.spent.mine else Add64(b.spent.mine, Amount(c)),
                       Add64(b.spent.plain, Amount(c)), b.spent.dao, b.spent.multisig || IsMultisig(c))
         && r.shown == b.shown.(contract := r.shown.contract, signedAt := r.shown.signedAt)
  }

  lemma {:induction false} SpendEffect(k: Keys, b: Book, c: Val, d: seq<u8>)
    requires CellShape(c) && |ArgsOf(c)| <= ARG_MAX && |d| + 4 < U32_SIZE && Tidy(b)
    ensures var r := Spend(k, b, c, d);
            && r.sent == b.sent && r.src == Locked(k, b, c).src && r.spent.distinct == Locked(k, b, c).spent.distinct
            && r.shown.signedAt == Locked(k, b, c).shown.signedAt && r.thrown == b.thrown && r.long == b.long
            && r.shown.hasDest == b.shown.hasDest && r.shown.hasChange == b.shown.hasChange
            && (Locked(k, b, c).shown.unsafe ==> r.shown.unsafe)
            && (b.shown.unsafe ==> r.shown.unsafe) && (!r.shown.unsafe ==> Charged(k, b, c, d, r))
  {
    var x := AtLock(k, SetActive(b, true), c);
    var y := Flag(Locked(k, b, c).(cell := WithData(k, c, d)), OddType(k, c));
    SpendIs(k, b, c, d);
    EndEffect(x);
    AtLockKeeps(k, b, c);
    CellFields(k, c, d);
    DataEffect(k, y);
    DataSources(k, y);
    hide InputData, LockEnd, AtLock, WithData, OddType, Spend, CellShape, IsDao, HasNonzero, Amount, Foreign, IsMultisig, ArgsOf, SetActive;
  }

  lemma {:induction false} AtLockKeeps(k: Keys, b: Book, c: Val)
    requires CellShape(c) && |ArgsOf(c)| <= ARG_MAX
    ensures var x := AtLock(k, SetActive(b, true), c);
            && x.spent == b.spent && x.sent == b.sent && x.src == b.src && x.thrown == b.thrown && x.long == b.long
            && x.shown == b.shown.(unsafe := x.shown.unsafe) && (b.shown.unsafe ==> x.shown.unsafe)
  {
    hide OddLock, InputCell, Padded, ArgsOf, CellShape;
  }

  lemma {:induction false} CellFields(k: Keys, c: Val, d: seq<u8>)
    requires CellShape(c)
    ensures var s := WithData(k, c, d);
            && s.active && s.capacity == Amount(c) && s.isDao == IsDao(c) && s.isMultisig == IsMultisig(c) && s.nonequal == Foreign(k, c)
            && s.nonzero == HasNonzero(d) && (s.dataSize == 8 <==> |d| == 8)
  {
    hide CellShape, IsDao, IsMultisig, Foreign, Amount, HasNonzero, ArgsOf;
  }

  lemma {:induction false} DataSources(k: Keys, b: Book)
    ensures var r := InputData(k, b); r.spent.distinct == b.spent.distinct && r.shown.signedAt == b.shown.signedAt
  {
    if b.cell.isDao { DaoIs(b); }
    hide DaoInput, Add64;
  }

  // ---------- All inputs ----------

  ghost predicate AllInRange(vals: seq<Val>) {
    forall i | 0 <= i < |vals| :: InputShape(vals[i]) && InRange(vals[i])
  }

  /** The book after an input, ready for the next. */
  ghost function NextInput(k: Keys, b: Book, v: Val): Book
    requires InputShape(v)
  {
    InputStart(OverInput(k, b, v))
  }

  /** `b` on its way to the output that is spent. */
  ghost function Seeking(b: Book, v: Val): Book
    requires InputShape(v)
  {
    b.(src := b.src.(index := IndexOf(v.vals[0])))
  }

  lemma {:induction false} InputEffect(k: Keys, b: Book, v: Val)
    requires InputShape(v) && InRange(v) && b == InputStart(b)
    ensures var r, c, l := NextInput(k, b, v), SpentCell(v), Locked(k, Seeking(b, v), SpentCell(v));
            && r == InputStart(r) && r.sent == b.sent && r.src.last == l.src.last && r.spent.distinct == l.spent.distinct
            && r.shown.signedAt == l.shown.signedAt && r.thrown == b.thrown && r.long == b.long
            && r.shown.hasDest == b.shown.hasDest && r.shown.hasChange == b.shown.hasChange
            && (l.shown.unsafe ==> r.shown.unsafe)
            && (b.shown.unsafe ==> r.shown.unsafe) && (!r.shown.unsafe ==> Charged(k, b, c, SpentDatum(v), r))
  {
    hide *;
    var b0 := Seeking(b, v);
    SeekingKeeps(b, v);
    NextIsSpend(k, b, v);
    var r := Spend(k, b0, SpentCell(v), SpentDatum(v));
    SpendEffect(k, b0, SpentCell(v), SpentDatum(v));
    NextKeeps(r);
    if !r.shown.unsafe { ChargedNext(k, b0, b, SpentCell(v), SpentDatum(v), r); }
  }

  lemma {:induction false} NextIsSpend(k: Keys, b: Book, v: Val)
    requires InputShape(v) && InRange(v) && b == InputStart(b)
    ensures NextInput(k, b, v) == InputStart(Spend(k, Seeking(b, v), SpentCell(v), SpentDatum(v)))
  {
    InputIsSpend(k, b, v);
    hide OverInput, Spend, InputShape, InRange, SpentCell, SpentDatum, IndexOf, InputStart;
  }

  lemma {:induction false} SeekingKeeps(b: Book, v: Val)
    requires InputShape(v) && b == InputStart(b)
    ensures var b0 := Seeking(b, v);
            Tidy(b0) && b0.sent == b.sent && b0.shown == b.shown && b0.spent == b.spent && b0.thrown == b.thrown && b0.long == b.long
  {
    hide IndexOf, InputShape;
  }

  lemma {:induction false} ChargedNext(k: Keys, b0: Book, b: Book, c: Val, d: seq<u8>, r: Book)
    requires CellShape(c) && Charged(k, b0, c, d, r) && b0.shown == b.shown && b0.spent == b.spent
    ensures Charged(k, b, c, d, InputStart(r))
  {
    NextKeeps(r);
    hide InputStart, IsDao, Amount, Foreign, IsMultisig, HasNonzero, CellShape;
  }

  lemma {:induction false} NextKeeps(b: Book)
    ensures var r := InputStart(b);
            && r == InputStart(r) && r.sent == b.sent && r.src.last == b.src.last && r.spent == b.spent && r.shown == b.shown
            && r.thrown == b.thrown && r.long == b.long
  {
  }

  /** The capacity of the inputs so far. */
  function Held(b: Book): u64 {
    Add64(b.spent.plain, b.spent.dao)
  }

  lemma {:induction false} ChargedHeld(k: Keys, b: Book, c: Val, d: seq<u8>, r: Book)
    requires CellShape(c) && Charged(k, b, c, d, r)
    ensures Held(r) == Mod64(Held(b) + Amount(c))
  {
    var p, q, a := b.spent.plain, b.spent.dao, Amount(c);
    hide IsDao, Foreign, IsMultisig, HasNonzero, Amount, CellShape;
    assert Held(r) == Add64(p, Add64(q, a)) || Held(r) == Add64(Add64(p, a), q);
    AddThree(p, q, a);
  }

  lemma {:induction false} AddThree(p: u64, q: u64, a: u64)
    ensures Add64(p, Add64(q, a)) == Add64(Add64(p, a), q) == Mod64(Add64(p, q) + a)
  {
  }

  ghost function SpentSum(vals: seq<Val>, j: nat): (s: nat)
    requires AllInRange(vals) && j <= |vals|
    decreases |vals| - j
  {
    if j == |vals| then 0 else Amount(SpentCell(vals[j])) + SpentSum(vals, j + 1)
  }

  lemma {:induction false} InputsHeld(k: Keys, b: Book, vals: seq<Val>, j: nat)
    requires AllInRange(vals) && InputShapes(vals) && j <= |vals| && b == InputStart(b)
    ensures var r := AllInputs(k, b, vals, j);
            && r.sent == b.sent && r.thrown == b.thrown && r.long == b.long && (b.shown.unsafe ==> r.shown.unsafe)
            && r.shown.hasDest == b.shown.hasDest && r.shown.hasChange == b.shown.hasChange
            && (!r.shown.unsafe ==> Held(r) == Mod64(Held(b) + SpentSum(vals, j)))
    decreases |vals| - j
  {
    hide *;
    if j < |vals| {
      RangeAt(vals, j);
      HeldStep(k, b, vals, j);
      InputsStep(k, b, vals, j);
      InputsHeld(k, NextInput(k, b, vals[j]), vals, j + 1);
      ModAdd(Held(b) + (SpentSum(vals, j) - SpentSum(vals, j + 1)), SpentSum(vals, j + 1));
    } else {
      InputsDone(k, b, vals);
      HeldSmall(b);
    }
  }

  lemma {:induction false} RangeAt(vals: seq<Val>, j: nat)
    requires AllInRange(vals) && j < |vals|
    ensures InputShape(vals[j]) && InRange(vals[j]) && CellShape(SpentCell(vals[j]))
    ensures SpentSum(vals, j) == Amount(SpentCell(vals[j])) + SpentSum(vals, j + 1)
  {
    hide InputShape, InRange, Amount;
  }

  lemma {:induction false} HeldStep(k: Keys, b: Book, vals: seq<Val>, j: nat)
    requires AllInRange(vals) && InputShapes(vals) && j < |vals| && InputShape(vals[j]) && b == InputStart(b)
    ensures var r := NextInput(k, b, vals[j]);
            && r == InputStart(r) && r.sent == b.sent && r.thrown == b.thrown && r.long == b.long && (b.shown.unsafe ==> r.shown.unsafe)
            && r.shown.hasDest == b.shown.hasDest && r.shown.hasChange == b.shown.hasChange
            && (!r.shown.unsafe ==> Held(r) == Mod64(Held(b) + (SpentSum(vals, j) - SpentSum(vals, j + 1))))
  {
    hide *;
    RangeAt(vals, j);
    InputEffect(k, b, vals[j]);
    if !NextInput(k, b, vals[j]).shown.unsafe {
      ChargedHeld(k, b, SpentCell(vals[j]), SpentDatum(vals[j]), NextInput(k, b, vals[j]));
    }
  }

  lemma {:induction false} HeldSmall(b: Book)
    ensures Held(b) == Mod64(Held(b) + 0)
  {
  }

  lemma {:induction false} InputsStep(k: Keys, b: Book, vals: seq<Val>, j: nat)
    requires InputShapes(vals) && j < |vals|
    ensures AllInputs(k, b, vals, j) == AllInputs(k, NextInput(k, b, vals[j]), vals, j + 1)
  {
  }

  lemma {:induction false} InputsDone(k: Keys, b: Book, vals: seq<Val>)
    requires InputShapes(vals)
    ensures AllInputs(k, b, vals, |vals|) == b && (AllInRange(vals) ==> SpentSum(vals, |vals|) == 0)
  {
  }
}
