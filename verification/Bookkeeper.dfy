/** The accounting callbacks as the device runs them, on the fields of the signing state. */
module Bookkeeper {
  import opened Words
  import opened Schema
  import opened Automaton
  import opened Views
  import opened Reader
  import opened Encoding
  import opened RoundTrip
  import opened Chunking
  import opened Transaction
  import opened Shapes
  import opened Ledger
  import opened LedgerTotal
  import opened Accounting

  function BlankEntry(): Entry {
    Entry(0, Zero(ARG_MAX), false)
  }

  /** The comparison loop of `script_arg_chunk`, which returns at the first difference. */
  method CompareArg(bs: seq<u8>, want: seq<u8>, differs: bool) returns (nonequal: bool)
    requires bs != [] && |bs| <= |want|
    ensures nonequal <==> differs || Differs(bs, want)
  {
    nonequal := differs;
    var i := 0;
    while i < |bs|
      invariant i <= |bs|
      invariant i == 0 ==> nonequal == differs
      invariant i > 0 ==> !nonequal && !differs
      invariant forall j | 0 <= j < i :: bs[j] == want[j]
    {
      nonequal := nonequal || want[i] != bs[i];
      if nonequal { return; }
      i := i + 1;
    }
  }

  /** `apdu_sign_state_t`, as far as the accounts go. `outputs` is the fixed buffer of destinations. */
  class Bookkeeper {
    const keys: Keys
    var cell: CellState
    var cmp: Who
    var arg: LockArg
    var owner: Hash20
    var src: Origin
    var spent: Spent
    var shown: Shown
    var at: nat
    const outputs: array<Entry>
    var outputCount: nat
    var mask: set<nat>
    var change: u64
    var plain: u64
    var dao: u64
    var isSelf: bool
    ghost var long: bool
    ghost var thrown: bool

    /** Past the destinations in use, the buffer is zero. */
    ghost predicate Valid()
      reads this, outputs
    {
      outputs.Length == MAX_OUTPUTS && outputCount <= MAX_OUTPUTS
      && forall i | outputCount <= i < MAX_OUTPUTS :: outputs[i] == BlankEntry()
    }

    ghost function Abs(): Book
      reads this, outputs
      requires Valid()
    {
      Book(cell, cmp, arg, owner, src, spent, Sent(at, outputs[..outputCount], mask, change, plain, dao, isSelf), shown, long, thrown)
    }

    constructor (keys: Keys)
      ensures Valid() && Abs() == Cleared() && this.keys == keys && fresh(outputs)
    {
      this.keys := keys;
      cell, cmp, arg, owner, src := BLANK_CELL, Nobody, Zero(ARG_MAX), Zero(20), NoSource();
      spent, shown := Spent(0, 0, 0, 0, false), Shown(false, false, NOT_SET, false, false, false, 0, 0, 0, 0, 0, 0);
      at, outputCount, mask, change, plain, dao, isSelf, long, thrown := 0, 0, {}, 0, 0, 0, false, false, false;
      outputs := new Entry[MAX_OUTPUTS](_ => BlankEntry());
    }

    /** The state is zeroed. */
    method Reset()
      requires Valid()
      modifies this, outputs
      ensures Valid() && Abs() == Cleared()
    {
      ClearUnion();
      ResetCells();
      ResetTotals();
    }

    method ResetCells()
      requires Valid()
      modifies `cell, `cmp, `arg, `owner, `src
      ensures Valid()
      ensures Abs() == old(Abs()).(cell := BLANK_CELL, cmp := Nobody, arg := Zero(ARG_MAX), owner := Zero(20), src := NoSource())
    {
      cell, cmp, arg, owner, src := BLANK_CELL, Nobody, Zero(ARG_MAX), Zero(20), NoSource();
    }

    method ResetTotals()
      requires Valid()
      modifies `spent, `shown, `long, `thrown
      ensures Valid()
      ensures Abs() == old(Abs()).(spent := Spent(0, 0, 0, 0, false), long := false, thrown := false,
                                   shown := Shown(false, false, NOT_SET, false, false, false, 0, 0, 0, 0, 0, 0))
    {
      spent, shown := Spent(0, 0, 0, 0, false), Shown(false, false, NOT_SET, false, false, false, 0, 0, 0, 0, 0, 0);
      long, thrown := false, false;
    }

    /** `script_arg_chunk`: copies the piece and compares it byte by byte, up to the first difference. */
    method TakeArg(bs: seq<u8>)
      requires Valid()
      modifies this
      ensures Valid() && Abs() == ScriptArg(keys, old(Abs()), bs)
    {
      hide Splice, Differs, BlankEntry, Zero;
      if !cell.active || bs == [] { return; }
      var from := cell.argIndex;
      if from + |bs| > ARG_MAX {
        cell := cell.(nonequal := true);
        long := true;
        return;
      }
      arg := Splice(arg, from, bs);
      cell := cell.(argIndex := from + |bs|);
      MarkDifference(from, bs);
    }

    /** The comparison with the lock argument looked for, if there is one. */
    method MarkDifference(from: nat, bs: seq<u8>)
      requires Valid() && bs != [] && from + |bs| <= ARG_MAX
      modifies `cell
      ensures Valid()
      ensures var b := old(Abs());
              Abs() == b.(cell := b.cell.(nonequal := b.cell.nonequal || b.cmp == Nobody || Differs(bs, Expected(keys, b)[from..])))
    {
      hide Differs, BlankEntry;
      if cmp == Nobody {
        cell := cell.(nonequal := true);
        return;
      }
      var want := if cmp == Current then keys.current + keys.change else keys.change + owner;
      var nonequal := CompareArg(bs, want[from..], cell.nonequal);
      cell := cell.(nonequal := nonequal);
    }

    /** `check_cell_data_data_chunk`. */
    method TakeData(bs: seq<u8>)
      requires Valid()
      modifies this
      ensures Valid() && Abs() == DataPiece(old(Abs()), bs)
    {
      if !cell.active { return; }
      var nonzero, i := cell.nonzero, 0;
      while i < |bs|
        invariant i <= |bs|
        invariant nonzero <==> cell.nonzero || exists j | 0 <= j < i :: bs[j] != 0
      {
        nonzero := nonzero || bs[i] != 0;
        i := i + 1;
      }
      cell := cell.(nonzero := nonzero);
    }

    /** A new destination. */
    method OpenDestination()
      requires Valid() && outputCount < MAX_OUTPUTS
      modifies this`outputCount, outputs
      ensures Valid() && Abs() == old(Abs()).(sent := old(Abs()).sent.(entries := old(Abs()).sent.entries + [Entry(0, arg, cell.isMultisig)]))
    {
      outputs[outputCount] := outputs[outputCount].(destination := arg, isMultisig := cell.isMultisig);
      outputCount := outputCount + 1;
      assert outputs[..outputCount] == old(outputs[..outputCount]) + [Entry(0, arg, cell.isMultisig)];
    }

    /** The output's capacity goes to the last destination. */
    method CreditLast()
      requires Valid() && outputCount > 0
      modifies this`plain, this`shown, outputs
      ensures Valid() && Abs() == PayTo(old(Abs()), old(Abs()).sent.entries)
    {
      plain := Add64(plain, cell.capacity);
      var last := outputs[outputCount - 1];
      outputs[outputCount - 1] := last.(capacity := Add64(last.capacity, cell.capacity));
      shown := shown.(hasDest := true);
      assert outputs[..outputCount] == Credit(old(outputs[..outputCount]), cell.capacity);
    }

    /** `output_end`, for an output to another address than the previous one. */
    method PayElsewhere()
      requires Valid() && outputCount > 0 && shown.hasDest
      requires !SamePlace(outputs[outputCount - 1], arg, cell.isMultisig)
      modifies this, outputs
      ensures Valid() && Abs() == Pay(old(Abs()))
    {
      hide Credit, SamePlace, Add64, BlankEntry;
      ghost var b := Abs();
      assert b.sent.entries[|b.sent.entries| - 1] == outputs[outputCount - 1];
      if shown.tag != NOT_SET && shown.tag != MULTI_OUTPUT { shown := shown.(unsafe := true); return; }
      shown := shown.(tag := MULTI_OUTPUT);
      if outputCount >= MAX_OUTPUTS { shown := shown.(unsafe := true); return; }
      PayNew();
    }

    /** The output goes to a new destination. */
    method PayNew()
      requires Valid() && outputCount < MAX_OUTPUTS
      modifies `outputCount, `plain, `shown, outputs
      ensures Valid() && Abs() == PayTo(old(Abs()), old(Abs()).sent.entries + [Entry(0, arg, cell.isMultisig)])
    {
      hide Credit, Add64, BlankEntry;
      OpenDestination();
      CreditLast();
    }

    /** `output_end`, for an output to another address. */
    method PayOut()
      requires Valid()
      modifies this, outputs
      ensures Valid() && Abs() == Pay(old(Abs()))
    {
      hide Credit, Add64;
      if !shown.hasDest {
        if outputCount != 0 { thrown := true; return; }
        OpenDestination();
        assert outputs[..outputCount] == [Entry(0, arg, cell.isMultisig)];
        CreditLast();
      } else if outputCount == 0 {
        thrown := true;
      } else if outputs[outputCount - 1].destination[..20] != arg[..20] || outputs[outputCount - 1].isMultisig != cell.isMultisig {
        PayElsewhere();
      } else {
        CreditLast();
      }
    }

    /** The change address becomes the only destination. */
    method ShowChange()
      requires Valid() && outputCount == 0
      modifies this`outputCount, outputs
      ensures Valid() && outputCount == 1 && outputs[0] == Entry(0, keys.change + Zero(8), false)
    {
      outputs[0] := outputs[0].(destination := keys.change + outputs[0].destination[20..]);
      outputCount := 1;
      assert keys.change + Zero(ARG_MAX)[20..] == keys.change + Zero(8);
    }

    /** `outputs_end`. */
    method CloseOutputs()
      requires Valid()
      modifies this, outputs
      ensures Valid() && Abs() == OutputsEnd(keys, old(Abs()))
    {
      hide Zero;
      if mask != {} || shown.tag == PREPARE || shown.tag == WITHDRAW { return; }
      isSelf := !shown.hasDest && shown.hasChange;
      if !isSelf { return; }
      if plain != 0 || outputCount != 0 { thrown := true; return; }
      ShowChange();
      plain := change;
      change := 0;
      shown := shown.(hasDest := false, hasChange := false);
      assert outputs[..outputCount] == [Entry(0, keys.change + Zero(8), false)];
    }

    /** The buffer of destinations is zeroed. */
    method ClearOutputs()
      requires Valid()
      modifies this`outputCount, outputs
      ensures Valid() && outputCount == 0
    {
      var i := 0;
      while i < MAX_OUTPUTS
        invariant i <= MAX_OUTPUTS == outputs.Length
        invariant forall j | 0 <= j < i :: outputs[j] == BlankEntry()
      {
        outputs[i] := BlankEntry();
        i := i + 1;
      }
      outputCount := 0;
    }

    /** `finish_inputs`. */
    method ClearUnion()
      requires Valid()
      modifies this, outputs
      ensures Valid() && Abs() == FinishInputs(old(Abs()))
    {
      ClearOutputs();
      src := NoSource();
      at, mask, change, plain, dao, isSelf := 0, {}, 0, 0, 0, false;
      assert outputs[..outputCount] == [];
    }

    /** `input_lock_arg_end`. */
    method CloseLock()
      requires Valid()
      modifies this
      ensures Valid() && Abs() == LockEnd(old(Abs()))
    {
      if !cell.active || src.last == arg[..20] { return; }
      spent := spent.(distinct := Add32(spent.distinct, 1));
      if !cell.nonequal {
        if shown.signedAt != 0 { shown := shown.(unsafe := true); return; }
        shown := shown.(signedAt := spent.distinct);
      }
      src := src.(last := arg[..20]);
    }

    /** `finish_input_cell_data`, for a DAO cell. */
    method CloseDaoInput()
      requires Valid()
      modifies this
      ensures Valid() && Abs() == DaoInput(old(Abs()))
    {
      hide Add64;
      owner := arg[..20];
      if cell.dataSize != 8 { shown := shown.(unsafe := true); return; }
      spent := spent.(dao := Add64(spent.dao, cell.capacity));
      var op := if cell.nonzero then WITHDRAW else PREPARE;
      if shown.tag != op && shown.tag != NOT_SET { shown := shown.(unsafe := true); return; }
      shown := shown.(tag := op);
    }

    /** `finish_input_cell_data`. */
    method CloseInputData()
      requires Valid()
      modifies this
      ensures Valid() && Abs() == InputData(keys, old(Abs()))
    {
      hide Add64, DaoInput;
      if !cell.active { return; }
      if cell.isDao { CloseDaoInput(); } else { ClosePlainInput(); }
    }

    /** `finish_input_cell_data`, for any other cell. */
    method ClosePlainInput()
      requires Valid() && cell.active && !cell.isDao
      modifies this`shown, this`spent
      ensures Valid() && Abs() == InputData(keys, old(Abs()))
    {
      hide Add64, DaoInput;
      if cell.dataSize != 0 && !keys.allow { shown := shown.(unsafe := true); return; }
      if cell.dataSize > 0 { shown := shown.(contract := true); }
      spent := spent.(plain := Add64(spent.plain, cell.capacity));
      if !cell.nonequal { spent := spent.(mine := Add64(spent.mine, cell.capacity)); }
      spent := spent.(multisig := spent.multisig || cell.isMultisig);
    }

    /** `output_end`. */
    method CloseOutput()
      requires Valid()
      modifies this, outputs
      ensures Valid() && Abs() == OutputEnd(old(Abs()))
    {
      hide Pay, Add64, ShiftBit;
      if cell.isDao {
        owner := arg[..20];
        dao := Add64(dao, cell.capacity);
        mask := mask + ShiftBit(at);
        if cell.nonequal || cell.isMultisig { shown := shown.(unsafe := true); return; }
        shown := shown.(hasChange := true);
      } else if cell.nonequal || cell.isMultisig {
        PayOut();
      } else {
        change := Add64(change, cell.capacity);
        shown := shown.(hasChange := true);
      }
    }

    /** `finish_output_cell_data`. */
    method CloseOutputData()
      requires Valid()
      modifies this
      ensures Valid() && Abs() == OutputData(keys, old(Abs()))
    {
      if cell.isDao {
        if cell.dataSize != 8 { shown := shown.(unsafe := true); return; }
        var op := if cell.nonzero then PREPARE else DEPOSIT;
        if shown.tag != op && shown.tag != NOT_SET { shown := shown.(unsafe := true); return; }
        shown := shown.(tag := op);
      } else {
        if cell.dataSize != 0 && !keys.allow { shown := shown.(unsafe := true); return; }
        if cell.dataSize > 0 { shown := shown.(contract := true); }
      }
    }

    /** A transfer, of one source or of several. */
    method DecideTransfer() returns (rejected: bool)
      requires Valid() && (shown.tag == NOT_SET || shown.tag == PLAIN)
      modifies this`shown
      ensures Valid() && rejected == Rejects(old(Abs()))
      ensures !rejected ==> shown == Amounts(old(Abs())).(tag := Settled(old(Abs())))
      ensures rejected ==> shown == old(shown).(tag := Settled(old(Abs())), unsafe := true)
    {
      rejected := false;
      if spent.distinct > 1 {
        if spent.multisig { shown := shown.(unsafe := true); return true; }
        shown := shown.(tag := MULTI_INPUT);
        if shown.signedAt == 0 { shown := shown.(unsafe := true); return true; }
        shown := shown.(ofAll := spent.distinct, amountFst := spent.mine, amountSnd := plain);
      } else {
        shown := shown.(tag := if isSelf then SELF else PLAIN, amountSnd := plain);
      }
    }

    /** Any other operation. */
    method DecideOther() returns (rejected: bool)
      requires Valid() && shown.tag != NOT_SET && shown.tag != PLAIN
      modifies this`shown
      ensures Valid() && rejected == Rejects(old(Abs())) && Settled(old(Abs())) == old(shown).tag
      ensures !rejected ==> shown == Amounts(old(Abs()))
      ensures rejected ==> shown == (if old(shown).tag == PREPARE || old(shown).tag == WITHDRAW then Amounts(old(Abs())) else old(shown)).(unsafe := true)
    {
      rejected := false;
      match shown.tag {
        case MULTI_INPUT => rejected := true;
        case SELF => shown := shown.(amountSnd := plain);
        case MULTI_OUTPUT =>
          if spent.distinct > 1 { rejected := true; } else { shown := shown.(amountSnd := plain); }
        case DEPOSIT => shown := shown.(daoAmount := dao);
        case PREPARE =>
          shown := shown.(daoAmount := dao);
          rejected := dao != spent.dao;
        case WITHDRAW =>
          shown := shown.(daoAmount := spent.dao);
          rejected := dao != 0 || plain != 0;
        case _ =>
      }
      if rejected { shown := shown.(unsafe := true); }
    }

    /** The switch of `finalize_raw_transaction`; true when it flags the transaction and returns. */
    method Decide() returns (rejected: bool)
      requires Valid()
      modifies this`shown
      ensures Valid() && rejected == Rejects(old(Abs()))
      ensures !rejected ==> shown == Amounts(old(Abs())).(tag := Settled(old(Abs())))
      ensures rejected ==> shown == Finalize(old(Abs())).shown
    {
      ghost var b := Abs();
      AmountsTag(b);
      if Rejects(b) { RejectedShown(b); }
      hide Amounts, Rejects, Settled, Finalize, Balance;
      if shown.tag == NOT_SET || shown.tag == PLAIN {
        rejected := DecideTransfer();
      } else {
        rejected := DecideOther();
      }
    }

    /** `finalize_raw_transaction`. */
    method FinalizeRaw()
      requires Valid()
      modifies this`shown
      ensures Valid() && Abs() == Finalize(old(Abs()))
    {
      ghost var b := Abs();
      FinalizeShown(b);
      FinishShown();
      assert Abs() == b.(shown := shown);
      hide *;
    }

    method FinishShown()
      requires Valid()
      modifies this`shown
      ensures shown == Finalize(old(Abs())).shown
    {
      ghost var b := Abs();
      var fee := ComputeFee();
      FinalizeShown(b);
      hide *;
      var rejected := Decide();
      if rejected { return; }
      shown := shown.(fee := if shown.tag == WITHDRAW then Sub64(0, fee) else fee);
    }

    /** Whether `finalize_raw_transaction` will flag the transaction. */
    method WillReject() returns (rejects: bool)
      requires Valid()
      ensures rejects == Rejects(Abs())
    {
      match shown.tag {
        case MULTI_INPUT => rejects := true;
        case MULTI_OUTPUT => rejects := spent.distinct > 1;
        case PREPARE => rejects := dao != spent.dao;
        case WITHDRAW => rejects := dao != 0 || plain != 0;
        case NOT_SET => rejects := spent.distinct > 1 && (spent.multisig || shown.signedAt == 0);
        case PLAIN => rejects := spent.distinct > 1 && (spent.multisig || shown.signedAt == 0);
        case _ => rejects := false;
      }
    }

    method ComputeFee() returns (fee: u64)
      requires Valid()
      ensures fee == Balance(Abs())
    {
      hide Add64, Sub64;
      fee := Sub64(Add64(spent.plain, spent.dao), Add64(Add64(plain, dao), change));
    }

    // ---------- Dispatch ----------

    method OnLeafData(t: Tag, bs: seq<u8>)
      requires Valid()
      modifies this
      ensures Valid() && Abs() == OnLeaf(keys, old(Abs()), t, bs)
    {
      hide Unpack, Unpack64, DefaultLock, MultisigLock, DaoType;
      match t {
        case PrevIndex => if |bs| == 4 { src := src.(index := Unpack(bs)); }
        case Capacity => if cell.active && |bs| == 8 { cell := cell.(capacity := Unpack64(bs)); }
        case LockHash => ReadLockCode(bs);
        case HashType => if cell.active && bs != [1] && !keys.allow { shown := shown.(unsafe := true); }
        case TypeHash => ReadTypeCode(bs);
        case _ =>
      }
    }

    /** `cell_lock_code_hash`. */
    method ReadLockCode(bs: seq<u8>)
      requires Valid()
      modifies this
      ensures Valid() && Abs() == LockCode(keys, old(Abs()), bs)
    {
      hide DefaultLock, MultisigLock;
      if !cell.active { return; }
      if bs == DefaultLock() {
        cell := cell.(isMultisig := false);
      } else if bs == MultisigLock() {
        cell := cell.(isMultisig := true);
      } else if !keys.allow {
        shown := shown.(unsafe := true);
      }
    }

    /** `cell_type_code_hash`. */
    method ReadTypeCode(bs: seq<u8>)
      requires Valid()
      modifies this
      ensures Valid() && Abs() == TypeCode(keys, old(Abs()), bs)
    {
      hide DaoType;
      if !cell.active { return; }
      if bs == DaoType() {
        cell := cell.(isDao := true);
      } else if !keys.allow {
        shown := shown.(unsafe := true);
      }
    }

    method OnBodyPiece(t: Tag, bs: seq<u8>)
      requires Valid()
      modifies this
      ensures Valid() && Abs() == OnBody(keys, old(Abs()), t, bs)
    {
      hide ScriptArg, DataPiece;
      if t == LockArgs || t == LockArgsOut {
        TakeArg(bs);
      } else if t == InputDatum || t == OutputDatum {
        TakeData(bs);
      }
    }

    method OnNodeStart(t: Tag)
      requires Valid()
      modifies this
      ensures Valid() && Abs() == OnStart(old(Abs()), t)
    {
      hide Zero;
      match t {
        case Inputs => src := src.(last := Zero(20));
        case Input =>
          cell, arg := BLANK_CELL, Zero(ARG_MAX);
          src := src.(index := 0);
        case LockArgs =>
          if cell.active {
            cell := cell.(argIndex := 0, nonequal := false);
            cmp := Current;
          }
        case _ =>
      }
    }

    method OnNodeEnd(t: Tag)
      requires Valid()
      modifies this, outputs
      ensures Valid() && Abs() == OnEnd(keys, old(Abs()), t)
    {
      hide LockEnd, InputData, FinishInputs, OutputEnd, OutputsEnd, OutputData, Finalize;
      match t {
        case LockScript => CloseLock();
        case InputDatum => CloseInputData();
        case Source => src := src.(index := 0);
        case Inputs => ClearUnion();
        case Output => CloseOutput();
        case Outputs => CloseOutputs();
        case OutputDatum => CloseOutputData();
        case RawTx => FinalizeRaw();
        case _ =>
      }
    }

    method OnItem(t: Tag, i: nat)
      requires Valid()
      modifies this
      ensures Valid() && Abs() == OnIndex(old(Abs()), t, i)
    {
      hide Zero;
      match t {
        case SourceOutputs => cell := cell.(active := i == src.index);
        case SourceData => cell := cell.(active := i == src.index);
        case Outputs =>
          at, cell, arg, cmp := i, BLANK_CELL.(active := true), Zero(ARG_MAX), Change;
        case OutputsData => cell := cell.(isDao := i in mask);
        case _ =>
      }
    }

    method OnLength(t: Tag, size: u32)
      requires Valid()
      modifies this
      ensures Valid() && Abs() == OnSize(keys, old(Abs()), t, size)
    {
      if t == TypeArgs {
        if cell.active && size != 4 && (cell.isDao || !keys.allow) { shown := shown.(unsafe := true); }
      } else if t == InputDatum || t == OutputDatum {
        if size < 4 { shown := shown.(hard := true); } else { cell := cell.(dataSize := if size - 4 < 15 then size - 4 else 15); }
      }
    }

    /** One callback. */
    method On(e: Event)
      requires Valid()
      modifies this, outputs
      ensures Valid() && Abs() == Apply(keys, old(Abs()), e)
    {
      hide OnLeaf, OnBody, OnStart, OnEnd, OnIndex, OnSize;
      match e {
        case Leaf(t, bs) => OnLeafData(t, bs);
        case Body(t, bs) => OnBodyPiece(t, bs);
        case Start(t) => OnNodeStart(t);
        case End(t) => OnNodeEnd(t);
        case Index(t, i) => OnItem(t, i);
        case Size(t, size) => OnLength(t, size);
        case _ =>
      }
    }
  }

  /** The chunks carry a message whose accounts the theorems are about. */
  ghost predicate Carry(chunks: seq<seq<u8>>, v: Val) {
    && Typed(AnnotatedTx(), v) && |Encode(AnnotatedTx(), v)| < U32_SIZE && Countable(RawOf(v))
    && chunks != [] && Join(chunks) == Encode(AnnotatedTx(), v)
  }

  /** Reads a whole message, chunk by chunk, and keeps its accounts. */
  method Keep(keys: Keys, chunks: seq<seq<u8>>) returns (rv: Rv, b: Bookkeeper)
    ensures b.Valid() && b.keys == keys
    ensures forall v | Carry(chunks, v) :: rv == COMPLETE && b.Abs() == Accounts(keys, RawOf(v))
  {
    MessagesRegular();
    RegularWf(AnnotatedTx());
    hide *;
    var st, used, log;
    rv, st, used, log := ParseAll(AnnotatedTx(), NUM_MAX, chunks);
    var events := log.events;
    b := new Bookkeeper(keys);
    var i := 0;
    ghost var all := Run(keys, Cleared(), events);
    assert events[0..] == events;
    while i < |events|
      invariant i <= |events| && b.Valid() && b.keys == keys && fresh(b.outputs) && fresh(b)
      invariant Run(keys, b.Abs(), events[i..]) == all
    {
      RunStep(keys, b.Abs(), events, i);
      b.On(events[i]);
      i := i + 1;
    }
    RunNone(keys, b.Abs(), events[i..]);
    forall v | Carry(chunks, v) ensures Carry(chunks, v) && rv == COMPLETE && all == Accounts(keys, RawOf(v)) {
      LogAccounts(keys, v, chunks, rv, st, events, used);
    }
  }

  lemma {:induction false} RunStep(k: Keys, b: Book, ev: seq<Event>, i: nat)
    requires i < |ev|
    ensures Run(k, b, ev[i..]) == Run(k, Apply(k, b, ev[i]), ev[i + 1..])
  {
    assert ev[i..][0] == ev[i] && ev[i..][1..] == ev[i + 1..];
    hide Apply;
  }

  lemma {:induction false} RunNone(k: Keys, b: Book, ev: seq<Event>)
    requires ev == []
    ensures Run(k, b, ev) == b
  {
  }

  /** Any log that agrees with the reader's result yields the accounts. */
  lemma {:induction false} LogAccounts(k: Keys, v: Val, chunks: seq<seq<u8>>, rv: Rv, st: St, ev: seq<Event>, used: int)
    requires Carry(chunks, v)
    requires Agrees(AnnotatedTx(), Feed(AnnotatedTx(), NUM_MAX, Init(AnnotatedTx()), chunks), rv, st, ev, used)
    ensures rv == COMPLETE && Run(k, Cleared(), ev) == Accounts(k, RawOf(v))
  {
    CarryIs(chunks, v);
    ShownWhole(k, v, chunks);
    ValueConserved(k, RawOf(v));
    NoChunks(LEDGER, AnnotatedTx());
    var r := Feed(AnnotatedTx(), NUM_MAX, Init(AnnotatedTx()), chunks);
    assert rv == r.rv && View(LEDGER, ev) == View(LEDGER, r.ev) by { hide Feed, Accounts, Countable, TxForm, RawForm, View, Run; }
    hide *;
    RunWhole(k, Cleared(), r.ev);
    RunView(k, Cleared(), ev);
  }

  lemma {:induction false} CarryIs(chunks: seq<seq<u8>>, v: Val)
    requires Carry(chunks, v)
    ensures Typed(AnnotatedTx(), v) && |Encode(AnnotatedTx(), v)| < U32_SIZE && Countable(RawOf(v)) && RawForm(RawOf(v))
    ensures chunks != [] && Join(chunks) == Encode(AnnotatedTx(), v)
  {
    hide Countable, RawForm;
  }

  lemma {:induction false} AmountsTag(b: Book)
    ensures Amounts(b).tag == b.shown.tag
  {
  }

  lemma {:induction false} RejectedShown(b: Book)
    requires Rejects(b)
    ensures Finalize(b).shown
         == (if b.shown.tag == PREPARE || b.shown.tag == WITHDRAW then Amounts(b) else b.shown).(tag := Settled(b), unsafe := true)
  {
    hide Rejects, Amounts, Settled, Balance;
  }

  lemma {:induction false} FinalizeShown(b: Book)
    ensures Finalize(b) == b.(shown := Finalize(b).shown)
    ensures !Rejects(b) ==>
      Finalize(b).shown == Amounts(b).(tag := Settled(b), fee := if Settled(b) == WITHDRAW then Sub64(0, Balance(b)) else Balance(b))
  {
    hide Rejects, Amounts, Settled, Balance, Sub64;
  }
}
