/** The callbacks that account for the cells of a transaction: amounts, destinations, signers, and
    the kind of operation. */
module Ledger {
  import opened Words
  import opened Schema
  import opened Automaton
  import opened Views
  import opened Encoding
  import opened Transaction

  function Add64(a: u64, b: u64): u64 {
    if a + b < U64_SIZE then a + b else a + b - U64_SIZE
  }

  function Sub64(a: u64, b: u64): u64 {
    if a >= b then a - b else a - b + U64_SIZE
  }

  function Unpack64(b: seq<u8>): u64
    requires |b| == 8
  {
    var (lo: int, hi: int) := (Unpack(b[..4]), Unpack(b[4..]));
    lo + U32_SIZE * hi
  }

  function Zero(n: nat): (z: seq<u8>)
    ensures |z| == n
  {
    seq(n, _ => 0)
  }

  /** `standard_lock_arg_t`. */
  type Hash20 = h: seq<u8> | |h| == 20 witness Zero(20)

  /** `lock_arg_t`: a key hash and, for a multisig lock, the period it stays locked. */
  type LockArg = a: seq<u8> | |a| == 28 witness Zero(28)

  function DefaultLock(): seq<u8> {
    [0x9b, 0xd7, 0xe0, 0x6f, 0x3e, 0xcf, 0x4b, 0xe0, 0xf2, 0xfc, 0xd2, 0x18, 0x8b, 0x23, 0xf1, 0xb9,
     0xfc, 0xc8, 0x8e, 0x5d, 0x4b, 0x65, 0xa8, 0x63, 0x7b, 0x17, 0x72, 0x3b, 0xbd, 0xa3, 0xcc, 0xe8]
  }

  function MultisigLock(): seq<u8> {
    [0x5c, 0x50, 0x69, 0xeb, 0x08, 0x57, 0xef, 0xc6, 0x5e, 0x1b, 0xca, 0x0c, 0x07, 0xdf, 0x34, 0xc3,
     0x16, 0x63, 0xb3, 0x62, 0x2f, 0xd3, 0x87, 0x6c, 0x87, 0x63, 0x20, 0xfc, 0x96, 0x34, 0xe2, 0xa8]
  }

  function DaoType(): seq<u8> {
    [0x82, 0xd7, 0x6d, 0x1b, 0x75, 0xfe, 0x2f, 0xd9, 0xa2, 0x7d, 0xfb, 0xaa, 0x65, 0xa0, 0x39, 0x22,
     0x1a, 0x38, 0x0d, 0x76, 0xc9, 0x26, 0xf3, 0x78, 0xd3, 0xf8, 0x1c, 0xf3, 0xe7, 0xe1, 0x3f, 0x2e]
  }

  /** Lock arguments kept, in bytes. */
  const ARG_MAX := 28
  const MAX_OUTPUTS := 5

  /** `OPERATION_TAG_*`. */
  datatype Op = NONE | NOT_SET | PLAIN | MULTI_OUTPUT | SELF | MULTI_INPUT | DEPOSIT | PREPARE | WITHDRAW

  /** Which lock argument the next one is compared with. */
  datatype Who = Nobody | Current | Change

  /** `cell_state_t`, the cell being read. */
  datatype CellState = CellState(
    capacity: u64, nonzero: bool, argIndex: nat, dataSize: nat, active: bool, isDao: bool, isMultisig: bool, nonequal: bool)

  const BLANK_CELL := CellState(0, false, 0, 0, false, false, false, false)

  /** `struct output_t`, a destination and what is sent there. */
  datatype Entry = Entry(capacity: u64, destination: LockArg, isMultisig: bool)

  /** What is known before a transaction is read: the setting that allows contract data, and the
      lock arguments to sign for and of the change address. */
  datatype Keys = Keys(allow: bool, current: Hash20, change: Hash20)

  /** `u.inp`: the index of the output the current input spends, and the previous input's lock. */
  datatype Origin = Origin(index: u32, last: Hash20)

  /** What is known of the inputs: how many sources they come from, how much we sign for, how much
      there is outside and inside the DAO. */
  datatype Spent = Spent(distinct: u32, mine: u64, plain: u64, dao: u64, multisig: bool)

  /** `u.tx`: `entries` is the filled part of `outputs`, `mask` the set bits of `dao_bitmask`. */
  datatype Sent = Sent(at: nat, entries: seq<Entry>, mask: set<nat>, change: u64, plain: u64, dao: u64, isSelf: bool)

  /** `maybe_transaction`, what is shown to the user. */
  datatype Shown = Shown(
    unsafe: bool, hard: bool, tag: Op, hasDest: bool, hasChange: bool, contract: bool, signedAt: u32, ofAll: u32,
    amountFst: u64, amountSnd: u64, daoAmount: u64, fee: u64)

  /** What the accounting callbacks keep. Two fields only observe: `long` records that the lock
      argument of an active cell overran its buffer, `thrown` that a consistency check failed. */
  datatype Book = Book(
    cell: CellState, cmp: Who, arg: LockArg, owner: Hash20, src: Origin, spent: Spent, sent: Sent, shown: Shown,
    long: bool, thrown: bool)

  function NoSource(): Origin {
    Origin(0, Zero(20))
  }

  function NothingSent(): Sent {
    Sent(0, [], {}, 0, 0, 0, false)
  }

  /** After `clear_data`. */
  function Cleared(): Book {
    Book(BLANK_CELL, Nobody, Zero(ARG_MAX), Zero(20), NoSource(), Spent(0, 0, 0, 0, false), NothingSent(),
         Shown(false, false, NOT_SET, false, false, false, 0, 0, 0, 0, 0, 0), false, false)
  }

  function Reject(b: Book): Book {
    b.(shown := b.shown.(unsafe := true))
  }

  // ---------- Cells ----------

  function InputsStart(b: Book): Book {
    b.(src := b.src.(last := Zero(20)))
  }

  function InputStart(b: Book): Book {
    b.(cell := BLANK_CELL, arg := Zero(ARG_MAX), src := b.src.(index := 0))
  }

  function SpentIndex(b: Book, bs: seq<u8>): Book {
    if |bs| != 4 then b else b.(src := b.src.(index := Unpack(bs)))
  }

  /** `finish_inputs` clears the union that input and output processing share. */
  function FinishInputs(b: Book): Book {
    b.(src := NoSource(), sent := NothingSent())
  }

  function SourceIndex(b: Book, i: nat): Book {
    b.(cell := b.cell.(active := i == b.src.index))
  }

  function CellCapacity(b: Book, bs: seq<u8>): Book {
    if !b.cell.active || |bs| != 8 then b else b.(cell := b.cell.(capacity := Unpack64(bs)))
  }

  function LockCode(k: Keys, b: Book, bs: seq<u8>): Book {
    if !b.cell.active then b
    else if bs == DefaultLock() then b.(cell := b.cell.(isMultisig := false))
    else if bs == MultisigLock() then b.(cell := b.cell.(isMultisig := true))
    else if !k.allow then Reject(b) else b
  }

  function ScriptKind(k: Keys, b: Book, bs: seq<u8>): Book {
    if b.cell.active && bs != [1] && !k.allow then Reject(b) else b
  }

  function ArgStart(b: Book): Book {
    if !b.cell.active then b else b.(cell := b.cell.(argIndex := 0, nonequal := false), cmp := Current)
  }

  /** The lock argument compared with, and the bytes that follow it in memory. */
  function Expected(k: Keys, b: Book): (e: seq<u8>)
    ensures |e| == 40
  {
    if b.cmp == Current then k.current + k.change else k.change + b.owner
  }

  predicate Differs(bs: seq<u8>, want: seq<u8>) {
    exists i | 0 <= i < |bs| && i < |want| :: bs[i] != want[i]
  }

  function Splice(arg: LockArg, at: nat, bs: seq<u8>): LockArg
    requires at + |bs| <= ARG_MAX
  {
    arg[..at] + bs + arg[at + |bs|..]
  }

  /** `script_arg_chunk`. A piece without bytes changes nothing: once a cell's argument is read, there
      is one to compare with. */
  function ScriptArg(k: Keys, b: Book, bs: seq<u8>): Book {
    var c := b.cell;
    if !c.active || bs == [] then b
    else if c.argIndex + |bs| > ARG_MAX then b.(cell := c.(nonequal := true), long := true)
    else
      var differs := b.cmp == Nobody || Differs(bs, Expected(k, b)[c.argIndex..]);
      b.(arg := Splice(b.arg, c.argIndex, bs), cell := c.(argIndex := c.argIndex + |bs|, nonequal := c.nonequal || differs))
  }

  function LockEnd(b: Book): Book {
    if !b.cell.active || b.src.last == b.arg[..20] then b
    else
      var b1 := b.(spent := b.spent.(distinct := Add32(b.spent.distinct, 1)));
      if b.cell.nonequal then Remember(b1)
      else if b.shown.signedAt != 0 then Reject(b1)
      else Remember(b1.(shown := b1.shown.(signedAt := b1.spent.distinct)))
  }

  /** The next input is compared with this one. */
  function Remember(b: Book): Book {
    b.(src := b.src.(last := b.arg[..20]))
  }

  function TypeCode(k: Keys, b: Book, bs: seq<u8>): Book {
    if !b.cell.active then b
    else if bs == DaoType() then b.(cell := b.cell.(isDao := true))
    else if !k.allow then Reject(b) else b
  }

  function TypeArgSize(k: Keys, b: Book, size: u32): Book {
    if b.cell.active && size != 4 && (b.cell.isDao || !k.allow) then Reject(b) else b
  }

  /** The size of the data is kept for inactive cells too. */
  function DataSize(b: Book, size: u32): Book {
    if size < 4 then b.(shown := b.shown.(hard := true))
    else b.(cell := b.cell.(dataSize := if size - 4 < 15 then size - 4 else 15))
  }

  predicate HasNonzero(bs: seq<u8>) {
    exists i | 0 <= i < |bs| :: bs[i] != 0
  }

  function DataPiece(b: Book, bs: seq<u8>): Book {
    if !b.cell.active then b else b.(cell := b.cell.(nonzero := b.cell.nonzero || HasNonzero(bs)))
  }

  /** Settles the operation, which must be undetermined or the same. */
  function Become(b: Book, op: Op): Book {
    if b.shown.tag != op && b.shown.tag != NOT_SET then Reject(b) else b.(shown := b.shown.(tag := op))
  }

  /** The data of an input cell is complete. */
  function InputData(k: Keys, b: Book): Book {
    var c := b.cell;
    if !c.active then b
    else if c.isDao then DaoInput(b)
    else if c.dataSize != 0 && !k.allow then Reject(b)
    else
      b.(shown := b.shown.(contract := b.shown.contract || c.dataSize > 0),
         spent := b.spent.(plain := Add64(b.spent.plain, c.capacity), multisig := b.spent.multisig || c.isMultisig,
                           mine := if c.nonequal then b.spent.mine else Add64(b.spent.mine, c.capacity)))
  }

  function DaoInput(b: Book): Book {
    var b1 := b.(owner := b.arg[..20]);
    if b.cell.dataSize != 8 then Reject(b1)
    else Become(b1.(spent := b.spent.(dao := Add64(b.spent.dao, b.cell.capacity))), if b.cell.nonzero then WITHDRAW else PREPARE)
  }

  // ---------- Outputs ----------

  function OutputStart(b: Book, i: nat): Book {
    b.(sent := b.sent.(at := i), cell := BLANK_CELL.(active := true), arg := Zero(ARG_MAX), cmp := Change)
  }

  /** Same destination, as far as the device looks. */
  predicate SamePlace(e: Entry, arg: LockArg, isMultisig: bool) {
    e.destination[..20] == arg[..20] && e.isMultisig == isMultisig
  }

  /** An output to another address adds to the last destination or opens the next one. */
  function Pay(b: Book): Book {
    var e := b.sent.entries;
    if !b.shown.hasDest then
      if e != [] then b.(thrown := true) else PayTo(b, [Entry(0, b.arg, b.cell.isMultisig)])
    else if e == [] then b.(thrown := true)
    else if SamePlace(e[|e| - 1], b.arg, b.cell.isMultisig) then PayTo(b, e)
    else if b.shown.tag != NOT_SET && b.shown.tag != MULTI_OUTPUT then Reject(b)
    else PayNext(b.(shown := b.shown.(tag := MULTI_OUTPUT)))
  }

  function PayNext(b: Book): Book {
    if |b.sent.entries| >= MAX_OUTPUTS then Reject(b)
    else PayTo(b, b.sent.entries + [Entry(0, b.arg, b.cell.isMultisig)])
  }

  /** The output's capacity goes to the last of these destinations. */
  function PayTo(b: Book, entries: seq<Entry>): Book
    requires entries != []
  {
    b.(sent := b.sent.(plain := Add64(b.sent.plain, b.cell.capacity), entries := Credit(entries, b.cell.capacity)),
       shown := b.shown.(hasDest := true))
  }

  function Credit(entries: seq<Entry>, capacity: u64): seq<Entry>
    requires entries != []
  {
    var n := |entries| - 1;
    entries[n := entries[n].(capacity := Add64(entries[n].capacity, capacity))]
  }

  function OutputEnd(b: Book): Book {
    var c := b.cell;
    if c.isDao then DaoOutput(b)
    else if c.nonequal || c.isMultisig then Pay(b)
    else b.(sent := b.sent.(change := Add64(b.sent.change, c.capacity)), shown := b.shown.(hasChange := true))
  }

  function Bits(lo: nat, hi: nat): (s: set<nat>)
    ensures forall i :: i in s <==> lo <= i < hi
    decreases hi - lo
  {
    if lo >= hi then {} else {lo} + Bits(lo + 1, hi)
  }

  /** The bits that `1 << i` sets in a 64-bit mask. The shift is one of a 32-bit int, whose sign bit
      spreads; by 32 or more it is undefined, and leaves nothing on the device's processor. */
  function ShiftBit(i: nat): set<nat> {
    if i < 31 then {i} else if i == 31 then Bits(31, 64) else {}
  }

  function DaoOutput(b: Book): Book {
    var b1 := b.(owner := b.arg[..20], sent := b.sent.(dao := Add64(b.sent.dao, b.cell.capacity), mask := b.sent.mask + ShiftBit(b.sent.at)));
    if b.cell.nonequal || b.cell.isMultisig then Reject(b1) else b1.(shown := b1.shown.(hasChange := true))
  }

  function OutputsEnd(k: Keys, b: Book): Book {
    if b.sent.mask != {} || b.shown.tag == PREPARE || b.shown.tag == WITHDRAW then b
    else if b.shown.hasDest || !b.shown.hasChange then b.(sent := b.sent.(isSelf := false))
    else if b.sent.plain != 0 || b.sent.entries != [] then b.(sent := b.sent.(isSelf := true), thrown := true)
    else
      // The flags are masked with the negation of a nonzero number, which is 0.
      b.(sent := b.sent.(isSelf := true, plain := b.sent.change, change := 0, entries := [Entry(0, k.change + Zero(8), false)]),
         shown := b.shown.(hasDest := false, hasChange := false))
  }

  function DatumStart(b: Book, i: nat): Book {
    b.(cell := b.cell.(isDao := i in b.sent.mask))
  }

  function OutputData(k: Keys, b: Book): Book {
    var c := b.cell;
    if c.isDao then
      if c.dataSize != 8 then Reject(b) else Become(b, if c.nonzero then PREPARE else DEPOSIT)
    else if c.dataSize != 0 && !k.allow then Reject(b)
    else b.(shown := b.shown.(contract := b.shown.contract || c.dataSize > 0))
  }

  // ---------- The end ----------

  /** `finalize_raw_transaction` flags the transaction and returns early. */
  predicate Rejects(b: Book) {
    match b.shown.tag
    case MULTI_INPUT => true
    case MULTI_OUTPUT => b.spent.distinct > 1
    case PREPARE => b.sent.dao != b.spent.dao
    case WITHDRAW => b.sent.dao != 0 || b.sent.plain != 0
    case NOT_SET => b.spent.distinct > 1 && (b.spent.multisig || b.shown.signedAt == 0)
    case PLAIN => b.spent.distinct > 1 && (b.spent.multisig || b.shown.signedAt == 0)
    case _ => false
  }

  /** The operation that is shown. */
  function Settled(b: Book): Op {
    if b.shown.tag != NOT_SET && b.shown.tag != PLAIN then b.shown.tag
    else if b.spent.distinct > 1 then if b.spent.multisig then b.shown.tag else MULTI_INPUT
    else if b.sent.isSelf then SELF else PLAIN
  }

  /** The amounts that are shown. */
  function Amounts(b: Book): Shown {
    match b.shown.tag
    case NONE => b.shown
    case DEPOSIT => b.shown.(daoAmount := b.sent.dao)
    case PREPARE => b.shown.(daoAmount := b.sent.dao)
    case WITHDRAW => b.shown.(daoAmount := b.spent.dao)
    case MULTI_OUTPUT => b.shown.(amountSnd := b.sent.plain)
    case SELF => b.shown.(amountSnd := b.sent.plain)
    case _ =>
      if b.spent.distinct > 1 then b.shown.(ofAll := b.spent.distinct, amountFst := b.spent.mine, amountSnd := b.sent.plain)
      else b.shown.(amountSnd := b.sent.plain)
  }

  /** The balance of the transaction, modulo 2^64. */
  function Balance(b: Book): u64 {
    Sub64(Add64(b.spent.plain, b.spent.dao), Add64(Add64(b.sent.plain, b.sent.dao), b.sent.change))
  }

  /** `finalize_raw_transaction`. */
  function Finalize(b: Book): Book {
    if Rejects(b) then
      Reject(b.(shown := (if b.shown.tag == PREPARE || b.shown.tag == WITHDRAW then Amounts(b) else b.shown).(tag := Settled(b))))
    else
      b.(shown := Amounts(b).(tag := Settled(b), fee := if Settled(b) == WITHDRAW then Sub64(0, Balance(b)) else Balance(b)))
  }

  // ---------- Runs ----------

  function OnLeaf(k: Keys, b: Book, t: Tag, bs: seq<u8>): Book {
    match t
    case PrevIndex => SpentIndex(b, bs)
    case Capacity => CellCapacity(b, bs)
    case LockHash => LockCode(k, b, bs)
    case HashType => ScriptKind(k, b, bs)
    case TypeHash => TypeCode(k, b, bs)
    case _ => b
  }

  function OnBody(k: Keys, b: Book, t: Tag, bs: seq<u8>): Book {
    if t == LockArgs || t == LockArgsOut then ScriptArg(k, b, bs)
    else if t == InputDatum || t == OutputDatum then DataPiece(b, bs)
    else b
  }

  function OnStart(b: Book, t: Tag): Book {
    match t
    case Inputs => InputsStart(b)
    case Input => InputStart(b)
    case LockArgs => ArgStart(b)
    case _ => b
  }

  function OnEnd(k: Keys, b: Book, t: Tag): Book {
    match t
    case LockScript => LockEnd(b)
    case InputDatum => InputData(k, b)
    case Source => b.(src := b.src.(index := 0))
    case Inputs => FinishInputs(b)
    case Output => OutputEnd(b)
    case Outputs => OutputsEnd(k, b)
    case OutputDatum => OutputData(k, b)
    case RawTx => Finalize(b)
    case _ => b
  }

  function OnIndex(b: Book, t: Tag, i: nat): Book {
    match t
    case SourceOutputs => SourceIndex(b, i)
    case SourceData => SourceIndex(b, i)
    case Outputs => OutputStart(b, i)
    case OutputsData => DatumStart(b, i)
    case _ => b
  }

  function OnSize(k: Keys, b: Book, t: Tag, size: u32): Book {
    match t
    case TypeArgs => TypeArgSize(k, b, size)
    case InputDatum => DataSize(b, size)
    case OutputDatum => DataSize(b, size)
    case _ => b
  }

  /** One callback. */
  function Apply(k: Keys, b: Book, e: Event): Book {
    match e
    case Leaf(t, bs) => OnLeaf(k, b, t, bs)
    case Body(t, bs) => OnBody(k, b, t, bs)
    case Start(t) => OnStart(b, t)
    case End(t) => OnEnd(k, b, t)
    case Index(t, i) => OnIndex(b, t, i)
    case Size(t, size) => OnSize(k, b, t, size)
    case _ => b
  }

  function Run(k: Keys, b: Book, ev: seq<Event>): Book
    decreases |ev|
  {
    if ev == [] then b else Run(k, Apply(k, b, ev[0]), ev[1..])
  }

  lemma {:induction false} RunPlus(k: Keys, b: Book, a: seq<Event>, c: seq<Event>)
    ensures Run(k, b, a + c) == Run(k, Run(k, b, a), c)
    decreases |a|
  {
    if a == [] {
      assert a + c == c;
    } else {
      assert (a + c)[1..] == a[1..] + c;
      hide Apply;
      RunPlus(k, Apply(k, b, a[0]), a[1..], c);
    }
  }

  // ---------- How the pieces are cut ----------

  /** The callbacks that reach the book. */
  const LEDGER :=
    Channel({}, {TypeArgs, InputDatum, OutputDatum, SourceOutputs, SourceData, Outputs, OutputsData},
            {Input, Inputs, Tag.Source, PrevIndex, Capacity, LockHash, HashType, LockArgs, LockArgsOut, LockScript, TypeHash,
             InputDatum, OutputDatum, Output, Outputs, RawTx})

  lemma {:induction false} NoChunks(K: Channel, s: Schema)
    requires K.chunk == {}
    ensures Anti(K, s)
  {
    if s.Struct? || s.Table? {
      forall i | 0 <= i < |s.fields| ensures Anti(K, s.fields[i]) { NoChunks(K, s.fields[i]); }
    } else if s.FixVec? || s.DynVec? || s.Option? {
      NoChunks(K, s.item);
    }
  }

  lemma {:induction false} DiffersPlus(a: seq<u8>, c: seq<u8>, want: seq<u8>)
    requires |a| <= |want|
    ensures Differs(a + c, want) <==> Differs(a, want) || Differs(c, want[|a|..])
  {
    if Differs(a, want) {
      var i :| 0 <= i < |a| && i < |want| && a[i] != want[i];
      assert (a + c)[i] != want[i];
    }
    if Differs(c, want[|a|..]) {
      var i :| 0 <= i < |c| && i < |want[|a|..]| && c[i] != want[|a|..][i];
      assert (a + c)[|a| + i] != want[|a| + i];
    }
    if Differs(a + c, want) {
      var i :| 0 <= i < |a + c| && i < |want| && (a + c)[i] != want[i];
      if i < |a| { assert a[i] != want[i]; } else { assert c[i - |a|] != want[|a|..][i - |a|]; }
    }
  }

  /** As long as the buffer is not overrun, pieces of a lock argument may be taken together. */
  lemma {:induction false} ArgPieces(k: Keys, b: Book, a: seq<u8>, c: seq<u8>)
    requires !b.cell.active || b.cell.argIndex + |a| + |c| <= ARG_MAX
    ensures ScriptArg(k, ScriptArg(k, b, a), c) == ScriptArg(k, b, a + c)
  {
    if a == [] {
      assert a + c == c;
    } else if c == [] {
      assert a + c == a;
    } else if b.cell.active {
      var n, want := b.cell.argIndex, Expected(k, b);
      DiffersPlus(a, c, want[n..]);
      assert want[n..][|a|..] == want[n + |a|..];
      assert Splice(Splice(b.arg, n, a), n + |a|, c) == Splice(b.arg, n, a + c);
    }
  }

  lemma {:induction false} DataPieces(b: Book, a: seq<u8>, c: seq<u8>)
    ensures DataPiece(DataPiece(b, a), c) == DataPiece(b, a + c) && DataPiece(b, []) == b
  {
    assert HasNonzero(a + c) <==> HasNonzero(a) || HasNonzero(c) by {
      if HasNonzero(a) { var i :| 0 <= i < |a| && a[i] != 0; assert (a + c)[i] != 0; }
      if HasNonzero(c) { var i :| 0 <= i < |c| && c[i] != 0; assert (a + c)[|a| + i] != 0; }
      if HasNonzero(a + c) {
        var i :| 0 <= i < |a + c| && (a + c)[i] != 0;
        if i < |a| { assert a[i] != 0; } else { assert c[i - |a|] != 0; }
      }
    }
  }

  /** The pieces of a lock argument, one after the other. */
  function ArgCut(k: Keys, b: Book, pieces: seq<seq<u8>>): Book
    decreases |pieces|
  {
    if pieces == [] then b else ArgCut(k, ScriptArg(k, b, pieces[0]), pieces[1..])
  }

  lemma {:induction false} ArgCutFits(k: Keys, b: Book, pieces: seq<seq<u8>>)
    requires b.cell.active && (b.cell.argIndex + |Join(pieces)| <= ARG_MAX || b.cell.argIndex >= ARG_MAX)
    ensures ArgCut(k, b, pieces) == ScriptArg(k, b, Join(pieces))
    decreases |pieces|
  {
    if pieces != [] {
      var p, rest := pieces[0], Join(pieces[1..]);
      if b.cell.argIndex >= ARG_MAX {
        ArgOver(k, b, p, rest);
      } else {
        ArgPieces(k, b, p, rest);
      }
      assert ScriptArg(k, b, p).cell.active && (ScriptArg(k, b, p).cell.argIndex == b.cell.argIndex + |p| || b.cell.argIndex >= ARG_MAX)
        && (b.cell.argIndex >= ARG_MAX ==> ScriptArg(k, b, p).cell.argIndex >= ARG_MAX);
      hide ScriptArg;
      ArgCutFits(k, ScriptArg(k, b, p), pieces[1..]);
    }
  }

  lemma {:induction false} ArgOver(k: Keys, b: Book, a: seq<u8>, c: seq<u8>)
    requires b.cell.active && b.cell.argIndex >= ARG_MAX
    ensures ScriptArg(k, ScriptArg(k, b, a), c) == ScriptArg(k, b, a + c)
  {
    assert (a == [] ==> a + c == c) && (c == [] ==> a + c == a);
  }

  /** How a lock argument is cut does not matter exactly if it fits what is left of the buffer, or
      nothing is left. */
  lemma {:induction false} ArgCuts(k: Keys, b: Book, bs: seq<u8>)
    requires b.cell.active
    ensures (forall pieces | Join(pieces) == bs :: ArgCut(k, b, pieces) == ScriptArg(k, b, bs))
       <==> b.cell.argIndex + |bs| <= ARG_MAX || b.cell.argIndex >= ARG_MAX
  {
    if b.cell.argIndex + |bs| <= ARG_MAX || b.cell.argIndex >= ARG_MAX {
      forall pieces | Join(pieces) == bs ensures ArgCut(k, b, pieces) == ScriptArg(k, b, bs) { ArgCutFits(k, b, pieces); }
    } else {
      var x, rest := [bs[0]], bs[1..];
      var pieces, last: seq<seq<u8>> := [x, rest], [rest];
      assert pieces[1..] == last && |last[1..]| == 0 && Join(last) == rest + Join(last[1..]) && x + rest == bs;
      assert Join(pieces) == bs;
      assert ArgCut(k, ScriptArg(k, b, x), last) == ArgCut(k, ScriptArg(k, ScriptArg(k, b, x), rest), last[1..]);
      assert ScriptArg(k, b, x).cell.argIndex == b.cell.argIndex + 1;
      assert ScriptArg(k, ScriptArg(k, b, x), rest).cell.argIndex > b.cell.argIndex == ScriptArg(k, b, bs).cell.argIndex;
    }
  }

  lemma {:induction false} LongStays(k: Keys, b: Book, e: Event)
    ensures b.long ==> Apply(k, b, e).long
  {
    hide DefaultLock, MultisigLock, DaoType, Zero, Splice, Expected, Unpack, Unpack64;
  }

  lemma {:induction false} LongRun(k: Keys, b: Book, ev: seq<Event>)
    ensures b.long ==> Run(k, b, ev).long
    decreases |ev|
  {
    if ev != [] {
      LongStays(k, b, ev[0]);
      hide Apply;
      LongRun(k, Apply(k, b, ev[0]), ev[1..]);
    }
  }

  lemma {:induction false} ArgByte(k: Keys, b: Book, x: u8, t: Tag)
    requires t == LockArgs || t == LockArgsOut
    ensures Apply(k, b, Body(t, [x])) == ScriptArg(k, b, [x])
  {
    hide ScriptArg;
  }

  lemma {:induction false} ArgBytes(k: Keys, b: Book, bs: seq<u8>, t: Tag)
    requires t == LockArgs || t == LockArgsOut
    requires !Run(k, b, BodyBytes(t, bs)).long
    ensures Run(k, b, BodyBytes(t, bs)) == ScriptArg(k, b, bs)
    decreases |bs|
  {
    if bs != [] {
      var x, rest := bs[0], bs[1..];
      var ev, b1 := BodyBytes(t, bs), ScriptArg(k, b, [x]);
      assert ev[0] == Body(t, [x]) && ev[1..] == BodyBytes(t, rest) && [x] + rest == bs;
      ArgByte(k, b, x, t);
      assert Run(k, b, ev) == Run(k, b1, ev[1..]) by { hide Apply, ScriptArg; }
      LongRun(k, b1, ev[1..]);
      hide Run, Apply, BodyBytes;
      ArgBytes(k, b1, rest, t);
      hide Splice, Differs;
      ArgPieces(k, b, [x], rest);
    }
  }

  lemma {:induction false} DatumBytes(k: Keys, b: Book, bs: seq<u8>, t: Tag)
    requires t == InputDatum || t == OutputDatum
    ensures Run(k, b, BodyBytes(t, bs)) == DataPiece(b, bs)
    decreases |bs|
  {
    if bs == [] {
      DataPieces(b, [], []);
    } else {
      var x, rest := bs[0], bs[1..];
      var ev := BodyBytes(t, bs);
      assert ev[0] == Body(t, [x]) && ev[1..] == BodyBytes(t, rest) && [x] + rest == bs;
      DatumByte(k, b, x, t);
      hide Apply, DataPiece;
      DataPieces(b, [x], rest);
      DatumBytes(k, DataPiece(b, [x]), rest, t);
    }
  }

  lemma {:induction false} DatumByte(k: Keys, b: Book, x: u8, t: Tag)
    requires t == InputDatum || t == OutputDatum
    ensures Apply(k, b, Body(t, [x])) == DataPiece(b, [x])
  {
    hide DataPiece;
  }

  lemma {:induction false} OtherByte(k: Keys, b: Book, x: u8, t: Tag)
    requires t != LockArgs && t != LockArgsOut && t != InputDatum && t != OutputDatum
    ensures Apply(k, b, Body(t, [x])) == b
  {
    hide ScriptArg, DataPiece, OnLeaf, OnStart, OnEnd, OnIndex, OnSize;
  }

  lemma {:induction false} OtherBytes(k: Keys, b: Book, bs: seq<u8>, t: Tag)
    requires t != LockArgs && t != LockArgsOut && t != InputDatum && t != OutputDatum
    ensures Run(k, b, BodyBytes(t, bs)) == b
    decreases |bs|
  {
    if bs != [] {
      var ev := BodyBytes(t, bs);
      assert ev[0] == Body(t, [bs[0]]) && ev[1..] == BodyBytes(t, bs[1..]);
      OtherByte(k, b, bs[0], t);
      assert Run(k, b, ev) == Run(k, Apply(k, b, ev[0]), ev[1..]) by { hide Apply; }
      hide Run, Apply;
      OtherBytes(k, b, bs[1..], t);
    }
  }

  lemma {:induction false} RunOne(k: Keys, b: Book, e: Event)
    ensures Run(k, b, [e]) == Apply(k, b, e)
  {
    assert [e][1..] == [];
    hide Apply;
  }

  lemma {:induction false} ViewOne(k: Keys, b: Book, e: Event)
    requires !Run(k, b, View1(LEDGER, e)).long
    ensures Run(k, b, View1(LEDGER, e)) == Apply(k, b, e)
  {
    RunOne(k, b, e);
    if e.Body? {
      if e.tag == LockArgs || e.tag == LockArgsOut {
        ArgBytes(k, b, e.bytes, e.tag);
      } else if e.tag == InputDatum || e.tag == OutputDatum {
        DatumBytes(k, b, e.bytes, e.tag);
      } else {
        OtherBytes(k, b, e.bytes, e.tag);
      }
    }
    hide ScriptArg, LockCode, TypeCode, TypeArgSize, InputData, Finalize, OutputEnd, OutputsEnd, OutputData;
  }

  lemma {:induction false} ArgWhole(k: Keys, b: Book, bs: seq<u8>, t: Tag)
    requires (t == LockArgs || t == LockArgsOut) && !ScriptArg(k, b, bs).long
    ensures Run(k, b, BodyBytes(t, bs)) == ScriptArg(k, b, bs)
    decreases |bs|
  {
    if bs != [] {
      var x, rest := bs[0], bs[1..];
      var ev, b1 := BodyBytes(t, bs), ScriptArg(k, b, [x]);
      assert ev[0] == Body(t, [x]) && ev[1..] == BodyBytes(t, rest) && [x] + rest == bs;
      ArgByte(k, b, x, t);
      ArgPieces(k, b, [x], rest);
      hide Apply;
      ArgWhole(k, b1, rest, t);
    }
  }

  lemma {:induction false} WholeOne(k: Keys, b: Book, e: Event)
    requires !Apply(k, b, e).long
    ensures Run(k, b, View1(LEDGER, e)) == Apply(k, b, e)
  {
    if e.Body? && (e.tag == LockArgs || e.tag == LockArgsOut) {
      ArgWhole(k, b, e.bytes, e.tag);
    } else {
      assert !Run(k, b, View1(LEDGER, e)).long by {
        RunOne(k, b, e);
        if e.Body? { if e.tag == InputDatum || e.tag == OutputDatum { DatumBytes(k, b, e.bytes, e.tag); } else { OtherBytes(k, b, e.bytes, e.tag); } }
        LongStays(k, b, e);
        hide Apply;
      }
      ViewOne(k, b, e);
    }
    hide Apply, ScriptArg;
  }

  /** A log in which no lock argument overruns its buffer has the accounts of its view. */
  lemma {:induction false} RunWhole(k: Keys, b: Book, ev: seq<Event>)
    requires !Run(k, b, ev).long
    ensures Run(k, b, View(LEDGER, ev)) == Run(k, b, ev)
    decreases |ev|
  {
    if ev != [] {
      hide Apply;
      LongRun(k, Apply(k, b, ev[0]), ev[1..]);
      WholeOne(k, b, ev[0]);
      RunPlus(k, b, View1(LEDGER, ev[0]), View(LEDGER, ev[1..]));
      RunWhole(k, Apply(k, b, ev[0]), ev[1..]);
    }
  }

  /** The accounts depend only on the view of the log on the accounting channel, provided no lock
      argument of an active cell overruns its buffer. */
  lemma {:induction false} RunView(k: Keys, b: Book, ev: seq<Event>)
    requires !Run(k, b, View(LEDGER, ev)).long
    ensures Run(k, b, ev) == Run(k, b, View(LEDGER, ev))
    decreases |ev|
  {
    if ev != [] {
      var v1, rest := View1(LEDGER, ev[0]), View(LEDGER, ev[1..]);
      hide Apply;
      RunPlus(k, b, v1, rest);
      LongRun(k, Run(k, b, v1), rest);
      ViewOne(k, b, ev[0]);
      RunView(k, Apply(k, b, ev[0]), ev[1..]);
    }
  }
}
