/** What one cell adds to the accounts. */
module Spending {
  import opened Words
  import opened Schema
  import opened Automaton
  import opened Encoding
  import opened Transaction
  import opened Ledger
  import opened LedgerCells
  import opened LedgerRuns
  import opened LedgerTotal

  // ---------- Cells ----------

  function Amount(c: Val): u64
    requires CellShape(c)
  {
    Unpack64(c.vals[0].bytes)
  }

  function LockCodeOf(c: Val): seq<u8>
    requires CellShape(c)
  {
    c.vals[1].vals[0].bytes
  }

  function ArgsOf(c: Val): seq<u8>
    requires CellShape(c)
  {
    c.vals[1].vals[2].bytes
  }

  predicate IsDao(c: Val)
    requires CellShape(c)
  {
    c.vals[2].Some? && c.vals[2].val.vals[0].bytes == DaoType()
  }

  predicate IsMultisig(c: Val)
    requires CellShape(c)
  {
    LockCodeOf(c) == MultisigLock()
  }

  lemma {:induction false} LocksDiffer()
    ensures MultisigLock() != DefaultLock()
  {
    assert MultisigLock()[0] != DefaultLock()[0];
  }

  /** The lock argument as it is kept. */
  function Padded(args: seq<u8>): LockArg
    requires |args| <= ARG_MAX
  {
    args + Zero(ARG_MAX - |args|)
  }

  function SetActive(b: Book, active: bool): Book {
    b.(cell := b.cell.(active := active))
  }

  /** Flags the transaction if `u`. */
  function Flag(b: Book, u: bool): Book {
    if u then Reject(b) else b
  }

  // ---------- Reading a cell ----------

  /** The lock is not one the device knows. */
  predicate OddLock(k: Keys, c: Val)
    requires CellShape(c)
  {
    !k.allow && ((LockCodeOf(c) != DefaultLock() && !IsMultisig(c)) || c.vals[1].vals[1].bytes != [1])
  }

  /** The type is not that of the DAO. */
  predicate OddType(k: Keys, c: Val)
    requires CellShape(c)
  {
    c.vals[2].Some? &&
    var t := c.vals[2].val;
    (!k.allow && (t.vals[0].bytes != DaoType() || t.vals[1].bytes != [1])) || (t.vals[2].bytes != [] && (IsDao(c) || !k.allow))
  }

  lemma {:induction false} LockCodeIs(k: Keys, b: Book, bs: seq<u8>)
    requires b.cell.active && !b.cell.isMultisig
    ensures LockCode(k, b, bs)
         == Flag(b.(cell := b.cell.(isMultisig := bs == MultisigLock())), !k.allow && bs != DefaultLock() && bs != MultisigLock())
  {
    LocksDiffer();
    hide DefaultLock, MultisigLock;
  }

  lemma {:induction false} KindIs(k: Keys, b: Book, bs: seq<u8>)
    requires b.cell.active
    ensures ScriptKind(k, b, bs) == Flag(b, !k.allow && bs != [1])
  {
  }

  lemma {:induction false} TypeCodeIs(k: Keys, b: Book, bs: seq<u8>)
    requires b.cell.active && !b.cell.isDao
    ensures TypeCode(k, b, bs) == Flag(b.(cell := b.cell.(isDao := bs == DaoType())), !k.allow && bs != DaoType())
  {
    hide DaoType;
  }

  lemma {:induction false} TypeSizeIs(k: Keys, b: Book, size: u32)
    requires b.cell.active
    ensures TypeArgSize(k, b, size) == Flag(b, size != 4 && (b.cell.isDao || !k.allow))
  {
  }

  /** The lock's code hash and hash type. */
  lemma {:induction false} LockHeadIs(k: Keys, b: Book, c: Val)
    requires CellShape(c) && b.cell.active && !b.cell.isMultisig
    ensures ScriptKind(k, LockCode(k, b, LockCodeOf(c)), c.vals[1].vals[1].bytes)
         == Flag(b.(cell := b.cell.(isMultisig := IsMultisig(c))), OddLock(k, c))
  {
    var code, kind := LockCodeOf(c), c.vals[1].vals[1].bytes;
    LockCodeIs(k, b, code);
    KindIs(k, LockCode(k, b, code), kind);
    hide LockCode, ScriptKind, DefaultLock, MultisigLock;
  }

  lemma {:induction false} TypeIs(k: Keys, b: Book, c: Val)
    requires CellShape(c) && b.cell.active && !b.cell.isDao
    ensures OverType(k, b, c.vals[2]) == Flag(b.(cell := b.cell.(isDao := IsDao(c))), OddType(k, c))
  {
    if c.vals[2].Some? {
      var t := c.vals[2].val;
      TypeScriptIs(k, b, t);
      TypeStepsIs(k, b, t.vals[0].bytes, t.vals[1].bytes, |t.vals[2].bytes|);
      hide TypeCode, ScriptKind, TypeArgSize, DaoType, OverScript;
    }
  }

  lemma {:induction false} TypeStepsIs(k: Keys, b: Book, code: seq<u8>, kind: seq<u8>, n: nat)
    requires b.cell.active && !b.cell.isDao && n + 4 < U32_SIZE
    ensures TypeArgSize(k, ScriptKind(k, TypeCode(k, b, code), kind), n + 4)
         == Flag(b.(cell := b.cell.(isDao := code == DaoType())),
                 (!k.allow && (code != DaoType() || kind != [1])) || (n > 0 && (code == DaoType() || !k.allow)))
  {
    var b1 := TypeCode(k, b, code);
    TypeCodeIs(k, b, code);
    KindIs(k, b1, kind);
    TypeSizeIs(k, ScriptKind(k, b1, kind), n + 4);
    hide TypeCode, ScriptKind, TypeArgSize, DaoType;
  }

  lemma {:induction false} TypeScriptIs(k: Keys, b: Book, t: Val)
    requires SmallScript(t)
    ensures OverScript(k, b, Quiet, TypeHash, TypeArgs, t)
         == TypeArgSize(k, ScriptKind(k, TypeCode(k, b, t.vals[0].bytes), t.vals[1].bytes), |t.vals[2].bytes| + 4)
  {
    hide TypeCode, ScriptKind, TypeArgSize;
  }

  // ---------- Lock arguments ----------

  /** A whole lock argument, read from its start. */
  lemma {:induction false} ArgIs(k: Keys, b: Book, args: seq<u8>)
    requires b.cell.active && b.cell.argIndex == 0 && !b.cell.nonequal && b.arg == Zero(ARG_MAX) && b.cmp != Nobody && |args| <= ARG_MAX
    ensures ScriptArg(k, b, args)
         == b.(arg := Padded(args), cell := b.cell.(argIndex := |args|, nonequal := Differs(args, Expected(k, b))))
  {
    var want := Expected(k, b);
    assert want[0..] == want;
    if args == [] {
      assert Padded(args) == Zero(ARG_MAX);
      assert b.cell == b.cell.(argIndex := |args|, nonequal := Differs(args, want));
    } else {
      assert Splice(b.arg, 0, args) == Padded(args);
    }
  }

  /** For 20-byte arguments the comparison is exact. */
  lemma {:induction false} DiffersIs(args: Hash20, want: Hash20, more: seq<u8>)
    ensures Differs(args, want + more) <==> args != want
  {
    if args != want {
      var i :| 0 <= i < 20 && args[i] != want[i];
      assert args[i] != (want + more)[i];
    }
  }

  // ---------- Outputs ----------

  /** An output, when its reading starts. */
  predicate Opened(b: Book) {
    b.cell == BLANK_CELL.(active := true) && b.arg == Zero(ARG_MAX) && b.cmp == Change
  }

  /** The lock argument is not that of the change address. */
  predicate Elsewhere(k: Keys, b: Book, c: Val)
    requires CellShape(c)
  {
    Differs(ArgsOf(c), k.change + b.owner)
  }

  function OutputCell(k: Keys, b: Book, c: Val): CellState
    requires CellShape(c)
  {
    CellState(Amount(c), false, |ArgsOf(c)|, 0, true, IsDao(c), IsMultisig(c), Elsewhere(k, b, c))
  }

  lemma {:induction false} OutputLockIs(k: Keys, b: Book, c: Val)
    requires CellShape(c)
    ensures OverScript(k, b, Quiet, LockHash, LockArgsOut, c.vals[1])
         == ScriptArg(k, ScriptKind(k, LockCode(k, b, LockCodeOf(c)), c.vals[1].vals[1].bytes), ArgsOf(c))
  {
    hide LockCode, ScriptKind, ScriptArg;
  }

  /** An output whose lock argument fits its buffer. */
  lemma {:induction false} OutputIs(k: Keys, b: Book, c: Val)
    requires CellShape(c) && Opened(b) && |ArgsOf(c)| <= ARG_MAX
    ensures OverCell(k, b, Quiet, LockArgsOut, c)
         == Flag(b.(cell := OutputCell(k, b, c), arg := Padded(ArgsOf(c))), OddLock(k, c) || OddType(k, c))
  {
    var b1 := CellCapacity(b, c.vals[0].bytes);
    assert b1 == b.(cell := b.cell.(capacity := Amount(c)));
    OutputLockIs(k, b1, c);
    LockHeadIs(k, b1, c);
    var b2 := Flag(b1.(cell := b1.cell.(isMultisig := IsMultisig(c))), OddLock(k, c));
    ArgIs(k, b2, ArgsOf(c));
    var b3 := ScriptArg(k, b2, ArgsOf(c));
    TypeIs(k, b3, c);
    hide OverScript, OverType, CellCapacity, ScriptArg, LockCode, ScriptKind, OddLock, OddType, IsDao, IsMultisig, ArgsOf, Padded, CellShape,
      LockCodeOf, Amount, Differs;
  }

  // ---------- Inputs ----------

  /** An input cell, when its reading starts. */
  predicate Awaited(b: Book) {
    b.cell == BLANK_CELL.(active := true) && b.arg == Zero(ARG_MAX)
  }

  /** The lock argument is not the one we sign for. */
  predicate Foreign(k: Keys, c: Val)
    requires CellShape(c)
  {
    Differs(ArgsOf(c), k.current + k.change)
  }

  function InputCell(k: Keys, c: Val): CellState
    requires CellShape(c)
  {
    CellState(Amount(c), false, |ArgsOf(c)|, 0, true, IsDao(c), IsMultisig(c), Foreign(k, c))
  }

  /** The book when the lock of an input cell has been read. */
  function AtLock(k: Keys, b: Book, c: Val): Book
    requires CellShape(c) && |ArgsOf(c)| <= ARG_MAX
  {
    Flag(b.(cell := InputCell(k, c).(isDao := false), arg := Padded(ArgsOf(c)), cmp := Current), OddLock(k, c))
  }

  lemma {:induction false} InputLockIs(k: Keys, b: Book, c: Val)
    requires CellShape(c)
    ensures OverScript(k, b, LockScript, LockHash, LockArgs, c.vals[1])
         == LockEnd(ScriptArg(k, ArgStart(ScriptKind(k, LockCode(k, b, LockCodeOf(c)), c.vals[1].vals[1].bytes)), ArgsOf(c)))
  {
    hide LockCode, ScriptKind, ScriptArg, ArgStart, LockEnd;
  }

  lemma {:induction false} LockEndCell(b: Book)
    ensures LockEnd(b).cell == b.cell && LockEnd(b).arg == b.arg
  {
  }

  /** An input cell whose lock argument fits its buffer. */
  lemma {:induction false} InputIs(k: Keys, b: Book, c: Val)
    requires CellShape(c) && Awaited(b) && |ArgsOf(c)| <= ARG_MAX
    ensures OverCell(k, b, LockScript, LockArgs, c)
         == Flag(LockEnd(AtLock(k, b, c)).(cell := InputCell(k, c)), OddType(k, c))
  {
    var b1 := CellCapacity(b, c.vals[0].bytes);
    assert b1 == b.(cell := b.cell.(capacity := Amount(c)));
    InputLockIs(k, b1, c);
    LockHeadIs(k, b1, c);
    var b2 := Flag(b1.(cell := b1.cell.(isMultisig := IsMultisig(c))), OddLock(k, c));
    var b3 := ArgStart(b2);
    ArgIs(k, b3, ArgsOf(c));
    assert ScriptArg(k, b3, ArgsOf(c)) == AtLock(k, b, c) by {
      hide ScriptArg, OverScript, LockCode, ScriptKind, OddLock, IsDao, IsMultisig, ArgsOf, Padded, CellShape, LockCodeOf, Amount, Differs;
    }
    LockEndCell(AtLock(k, b, c));
    assert AtLock(k, b, c).cell == InputCell(k, c).(isDao := false) by { hide IsDao, IsMultisig, Padded, OddLock, Amount, Differs; }
    TypeIs(k, LockEnd(AtLock(k, b, c)), c);
    hide *;
    InputGlue(k, b, c, b1);
  }

  lemma {:induction false} InputGlue(k: Keys, b: Book, c: Val, b1: Book)
    requires CellShape(c) && |ArgsOf(c)| <= ARG_MAX && b1 == CellCapacity(b, c.vals[0].bytes)
    requires OverScript(k, b1, LockScript, LockHash, LockArgs, c.vals[1]) == LockEnd(AtLock(k, b, c))
    requires LockEnd(AtLock(k, b, c)).cell == InputCell(k, c).(isDao := false)
    requires OverType(k, LockEnd(AtLock(k, b, c)), c.vals[2])
          == Flag(LockEnd(AtLock(k, b, c)).(cell := LockEnd(AtLock(k, b, c)).cell.(isDao := IsDao(c))), OddType(k, c))
    ensures OverCell(k, b, LockScript, LockArgs, c) == Flag(LockEnd(AtLock(k, b, c)).(cell := InputCell(k, c)), OddType(k, c))
  {
    hide OverScript, OverType, CellCapacity, LockEnd, AtLock, Flag, OddType, IsMultisig, Amount, Foreign, CellShape;
  }
}
