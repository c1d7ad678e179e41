/** The accounts of the outputs: what is sent where, what comes back, what goes to the DAO. */
module Payments {
  import opened Words
  import opened Schema
  import opened Automaton
  import opened Encoding
  import opened Transaction
  import opened Ledger
  import opened LedgerCells
  import opened LedgerRuns
  import opened LedgerTotal
  import opened Spending
  import opened Conservation
  import opened Grouping

  /** What every output keeps: a destination is known exactly when one has been paid, there are at
      most five, and the consistency checks have not failed. */
  predicate Consistent(b: Book) {
    && (b.shown.hasDest <==> b.sent.entries != []) && |b.sent.entries| <= MAX_OUTPUTS && !b.thrown
    && (b.sent.entries == [] ==> b.sent.plain == 0)
    && b.sent.plain == TotalOf(b.sent.entries)
  }

  /** Everything the outputs send, keep and deposit. */
  function Gone(b: Book): u64 {
    Add64(Add64(b.sent.plain, b.sent.dao), b.sent.change)
  }

  lemma {:induction false} CreditTotal(es: seq<Entry>, capacity: u64)
    requires es != []
    ensures TotalOf(Credit(es, capacity)) == Add64(TotalOf(es), capacity)
    decreases |es|
  {
    if |es| == 1 {
      assert es[1..] == [] && Credit(es, capacity)[1..] == [];
    } else {
      assert Credit(es, capacity)[1..] == Credit(es[1..], capacity);
      CreditTotal(es[1..], capacity);
    }
  }

  lemma {:induction false} PushTotal(es: seq<Entry>, x: Entry)
    ensures TotalOf(Push(es, x)) == Add64(TotalOf(es), x.capacity)
  {
    if es != [] && Alike(es[|es| - 1], x) {
      CreditTotal(es, x.capacity);
    } else {
      TotalPlus(es, [x]);
      assert TotalOf([x]) == Add64(x.capacity, 0);
    }
  }

  /** The cell at hand as a payment. */
  function Payment(b: Book): Entry {
    Entry(b.cell.capacity, b.arg, b.cell.isMultisig)
  }

  lemma {:induction false} CreditNew(es: seq<Entry>, x: Entry)
    ensures Credit(es + [x.(capacity := 0)], x.capacity) == es + [x]
  {
    assert Add64(0, x.capacity) == x.capacity;
  }

  /** The payment is made. */
  function Joined(b: Book): Book {
    b.(sent := b.sent.(entries := Push(b.sent.entries, Payment(b)), plain := Add64(b.sent.plain, b.cell.capacity)),
       shown := b.shown.(hasDest := true))
  }

  /** The payment goes to another place than the previous one. */
  predicate Opens(b: Book) {
    b.sent.entries != [] && !Alike(b.sent.entries[|b.sent.entries| - 1], Payment(b))
  }

  lemma {:induction false} PayIs(b: Book)
    requires Consistent(b)
    ensures Pay(b) == if !Opens(b) then Joined(b)
                      else if b.shown.tag != NOT_SET && b.shown.tag != MULTI_OUTPUT then Reject(b)
                      else if |b.sent.entries| == MAX_OUTPUTS then Reject(b.(shown := b.shown.(tag := MULTI_OUTPUT)))
                      else Joined(b.(shown := b.shown.(tag := MULTI_OUTPUT)))
  {
    var es, x := b.sent.entries, Payment(b);
    CreditNew(es, x);
    if es == [] {
      assert es + [x] == [x] && es + [x.(capacity := 0)] == [x.(capacity := 0)];
    } else {
      assert SamePlace(es[|es| - 1], b.arg, b.cell.isMultisig) == Alike(es[|es| - 1], x);
    }
    hide TotalOf, Alike, SamePlace;
  }

  lemma {:induction false} JoinedKeeps(b: Book)
    requires Consistent(b) && (Opens(b) ==> |b.sent.entries| < MAX_OUTPUTS)
    ensures Consistent(Joined(b)) && Gone(Joined(b)) == Mod64(Gone(b) + b.cell.capacity)
  {
    PushTotal(b.sent.entries, Payment(b));
    AddFour(b.sent.plain, b.sent.dao, b.sent.change, b.cell.capacity);
    hide TotalOf, Alike;
  }

  lemma {:induction false} AddFour(p: u64, d: u64, c: u64, a: u64)
    ensures Add64(Add64(Add64(p, a), d), c) == Mod64(Add64(Add64(p, d), c) + a)
    ensures Add64(Add64(p, Add64(d, a)), c) == Mod64(Add64(Add64(p, d), c) + a)
    ensures Add64(Add64(p, d), Add64(c, a)) == Mod64(Add64(Add64(p, d), c) + a)
  {
    AddIsMod(Add64(Add64(p, d), c), a);
    hide Mod64;
  }

  // ---------- One output ----------

  /** An output as a payment. */
  function Destined(c: Val): Entry
    requires CellShape(c) && |ArgsOf(c)| <= ARG_MAX
  {
    Entry(Amount(c), Padded(ArgsOf(c)), IsMultisig(c))
  }

  /** The output when it has been read. */
  function Filled(k: Keys, b: Book, c: Val): Book
    requires CellShape(c) && |ArgsOf(c)| <= ARG_MAX
  {
    b.(cell := OutputCell(k, b, c), arg := Padded(ArgsOf(c)))
  }

  /** What an output changes, unless it flags the transaction. */
  ghost predicate Counted(k: Keys, b: Book, c: Val, r: Book)
    requires CellShape(c) && |ArgsOf(c)| <= ARG_MAX
  {
    && !b.shown.unsafe
    && if IsDao(c) then
         && !Elsewhere(k, b, c) && !IsMultisig(c) && r.shown == b.shown.(hasChange := true)
         && r.sent == b.sent.(dao := Add64(b.sent.dao, Amount(c)), mask := b.sent.mask + ShiftBit(b.sent.at))
       else if Elsewhere(k, b, c) || IsMultisig(c) then
         && r.sent == b.sent.(entries := Push(b.sent.entries, Destined(c)), plain := Add64(b.sent.plain, Amount(c)))
         && r.shown == b.shown.(hasDest := true, tag := r.shown.tag)
         && (r.shown.tag == b.shown.tag || (r.shown.tag == MULTI_OUTPUT && b.shown.tag == NOT_SET))
       else
         r.sent == b.sent.(change := Add64(b.sent.change, Amount(c))) && r.shown == b.shown.(hasChange := true)
  }

  /** What a payment changes, unless it flags the transaction. */
  ghost predicate PaysFor(b: Book, r: Book) {
    && Consistent(r) && r.spent == b.spent && r.src == b.src && r.long == b.long && (b.shown.unsafe ==> r.shown.unsafe)
    && (!r.shown.unsafe ==>
         && !b.shown.unsafe && r.sent == Joined(b).sent && r.shown == b.shown.(hasDest := true, tag := r.shown.tag)
         && (r.shown.tag == b.shown.tag || (r.shown.tag == MULTI_OUTPUT && b.shown.tag == NOT_SET))
         && Gone(r) == Mod64(Gone(b) + b.cell.capacity))
  }

  lemma {:induction false} JoinedPaid(b: Book)
    requires Consistent(b) && (Opens(b) ==> |b.sent.entries| < MAX_OUTPUTS)
    ensures PaysFor(b, Joined(b))
  {
    JoinedKeeps(b);
    hide Push, Gone, TotalOf, Opens, Mod64, Add64, Alike;
  }

  /** An unsettled operation becomes that of several outputs. */
  lemma {:induction false} MultiPaid(b: Book, r: Book)
    requires var b1 := b.(shown := b.shown.(tag := MULTI_OUTPUT)); PaysFor(b1, r)
    requires b.shown.tag == NOT_SET || b.shown.tag == MULTI_OUTPUT
    ensures PaysFor(b, r)
  {
    var b1 := b.(shown := b.shown.(tag := MULTI_OUTPUT));
    assert Joined(b1).sent == Joined(b).sent && Gone(b1) == Gone(b) by { hide Push, Alike; }
    hide Consistent, Push, Gone, Mod64, Add64;
  }

  lemma {:induction false} EndPays(b: Book)
    requires Consistent(b) && !b.cell.isDao && (b.cell.nonequal || b.cell.isMultisig)
    ensures PaysFor(b, OutputEnd(b))
  {
    PayIs(b);
    var b1 := b.(shown := b.shown.(tag := MULTI_OUTPUT));
    assert Opens(b1) == Opens(b) && Consistent(b1);
    assert OutputEnd(b) == Pay(b) by { hide Pay; }
    hide Pay, OutputEnd, Joined, Opens, Push, Gone, TotalOf, Mod64, Add64;
    if !Opens(b) {
      JoinedPaid(b);
    } else if |b.sent.entries| < MAX_OUTPUTS {
      JoinedPaid(b1);
      if b.shown.tag == NOT_SET || b.shown.tag == MULTI_OUTPUT { MultiPaid(b, Joined(b1)); }
    }
  }

  lemma {:induction false} EndElse(b: Book)
    requires Consistent(b) && (b.cell.isDao || !(b.cell.nonequal || b.cell.isMultisig))
    ensures var r, c := OutputEnd(b), b.cell;
            && Consistent(r) && r.spent == b.spent && r.src == b.src && r.long == b.long && (b.shown.unsafe ==> r.shown.unsafe)
            && (!r.shown.unsafe ==>
                 && !b.shown.unsafe && Gone(r) == Mod64(Gone(b) + c.capacity) && r.shown == b.shown.(hasChange := true)
                 && if c.isDao then
                      && !c.nonequal && !c.isMultisig
                      && r.sent == b.sent.(dao := Add64(b.sent.dao, c.capacity), mask := b.sent.mask + ShiftBit(b.sent.at))
                    else r.sent == b.sent.(change := Add64(b.sent.change, c.capacity)))
  {
    AddFour(b.sent.plain, b.sent.dao, b.sent.change, b.cell.capacity);
    hide TotalOf, Mod64, Add64, ShiftBit;
  }

  lemma {:induction false} OutputEffect(k: Keys, b: Book, c: Val)
    requires CellShape(c) && Opened(b) && Consistent(b) && |ArgsOf(c)| <= ARG_MAX
    ensures var r := OutputEnd(OverCell(k, b, Quiet, LockArgsOut, c));
            && Consistent(r) && r.spent == b.spent && r.src == b.src && r.long == b.long && (b.shown.unsafe ==> r.shown.unsafe)
            && (!r.shown.unsafe ==> Counted(k, b, c, r) && Gone(r) == Mod64(Gone(b) + Amount(c)))
  {
    var odd := OddLock(k, c) || OddType(k, c);
    OutputIs(k, b, c);
    FilledKeeps(k, b, c, odd);
    hide *;
    if IsDao(c) || !(Elsewhere(k, b, c) || IsMultisig(c)) {
      ElseEffect(k, b, c, odd);
    } else {
      PaysEffect(k, b, c, odd);
    }
  }

  lemma {:induction false} ElseEffect(k: Keys, b: Book, c: Val, odd: bool)
    requires CellShape(c) && Consistent(b) && |ArgsOf(c)| <= ARG_MAX && (IsDao(c) || !(Elsewhere(k, b, c) || IsMultisig(c)))
    ensures var r := OutputEnd(Flag(Filled(k, b, c), odd));
            && Consistent(r) && r.spent == b.spent && r.src == b.src && r.long == b.long && (b.shown.unsafe ==> r.shown.unsafe)
            && (!r.shown.unsafe ==> Counted(k, b, c, r) && Gone(r) == Mod64(Gone(b) + Amount(c)))
  {
    FilledKeeps(k, b, c, odd);
    var x := Flag(Filled(k, b, c), odd);
    assert x.cell == OutputCell(k, b, c);
    EndElse(x);
    hide OutputEnd, Consistent, Gone, Mod64, Push, Elsewhere, IsDao, IsMultisig, Amount, ArgsOf, CellShape, Flag, Filled, Joined, Payment, Destined, Add64, ShiftBit;
  }

  lemma {:induction false} PaysEffect(k: Keys, b: Book, c: Val, odd: bool)
    requires CellShape(c) && Consistent(b) && |ArgsOf(c)| <= ARG_MAX && !IsDao(c) && (Elsewhere(k, b, c) || IsMultisig(c))
    ensures var r := OutputEnd(Flag(Filled(k, b, c), odd));
            && Consistent(r) && r.spent == b.spent && r.src == b.src && r.long == b.long && (b.shown.unsafe ==> r.shown.unsafe)
            && (!r.shown.unsafe ==> Counted(k, b, c, r) && Gone(r) == Mod64(Gone(b) + Amount(c)))
  {
    FilledKeeps(k, b, c, odd);
    EndPays(Flag(Filled(k, b, c), odd));
    hide OutputEnd, Consistent, Gone, Mod64, Push, Elsewhere, IsDao, IsMultisig, Amount, ArgsOf, CellShape, Flag, Filled, Joined, Payment, Destined, Add64, ShiftBit;
  }

  lemma {:induction false} FilledKeeps(k: Keys, b: Book, c: Val, odd: bool)
    requires CellShape(c) && Consistent(b) && |ArgsOf(c)| <= ARG_MAX
    ensures var x := Flag(Filled(k, b, c), odd);
            && Consistent(x) && x.spent == b.spent && x.src == b.src && x.long == b.long && x.sent == b.sent && Gone(x) == Gone(b)
            && x.shown == b.shown.(unsafe := x.shown.unsafe) && (b.shown.unsafe ==> x.shown.unsafe)
            && x.cell.isDao == IsDao(c) && x.cell.isMultisig == IsMultisig(c) && x.cell.nonequal == Elsewhere(k, b, c)
            && x.cell.capacity == Amount(c) && Payment(x) == Destined(c)
            && Joined(x).sent == b.sent.(entries := Push(b.sent.entries, Destined(c)), plain := Add64(b.sent.plain, Amount(c)))
  {
    hide TotalOf, Push, Elsewhere, IsDao, IsMultisig, Amount, ArgsOf, CellShape, Padded;
  }

  // ---------- All outputs ----------

  /** Every lock argument fits the device's buffer. */
  predicate Fit(vals: seq<Val>) {
    forall i | 0 <= i < |vals| :: CellShape(vals[i]) && |ArgsOf(vals[i])| <= ARG_MAX
  }

  /** The book after an output, when the reading of the next one starts. */
  function NextOutput(k: Keys, b: Book, c: Val, j: nat): Book
    requires CellShape(c)
  {
    OutputStart(OutputEnd(OverCell(k, b, Quiet, LockArgsOut, c)), j + 1)
  }

  /** Ready to read output `j`. */
  predicate Awaiting(b: Book, j: nat) {
    Opened(b) && Consistent(b) && b.sent.at == j
  }

  lemma {:induction false} StartKeeps(b: Book, j: nat)
    requires Consistent(b)
    ensures var r := OutputStart(b, j);
            && Awaiting(r, j) && r.spent == b.spent && r.src == b.src && r.long == b.long && r.shown == b.shown && Gone(r) == Gone(b)
            && r.sent == b.sent.(at := j)
  {
    hide TotalOf;
  }

  /** The output's effect, up to the number of the next output. */
  ghost predicate Passed(k: Keys, b: Book, c: Val, r: Book)
    requires CellShape(c) && |ArgsOf(c)| <= ARG_MAX
  {
    Counted(k, b, c, r.(sent := r.sent.(at := b.sent.at)))
  }

  lemma {:induction false} NextEffect(k: Keys, b: Book, c: Val, j: nat)
    requires CellShape(c) && Awaiting(b, j) && |ArgsOf(c)| <= ARG_MAX
    ensures var r := NextOutput(k, b, c, j);
            && Awaiting(r, j + 1) && r.spent == b.spent && r.src == b.src && r.long == b.long && (b.shown.unsafe ==> r.shown.unsafe)
            && (!r.shown.unsafe ==> Passed(k, b, c, r) && Gone(r) == Mod64(Gone(b) + Amount(c)))
  {
    var x := OutputEnd(OverCell(k, b, Quiet, LockArgsOut, c));
    assert Opened(b) && Consistent(b) && NextOutput(k, b, c, j) == OutputStart(x, j + 1) by { hide OutputEnd, OverCell, OutputStart, Opened, Consistent; }
    hide *;
    OutputEffect(k, b, c);
    StartKeeps(x, j + 1);
    if !x.shown.unsafe { PassedOn(k, b, c, x, j); }
  }

  lemma {:induction false} PassedOn(k: Keys, b: Book, c: Val, x: Book, j: nat)
    requires CellShape(c) && |ArgsOf(c)| <= ARG_MAX && Counted(k, b, c, x)
    ensures Passed(k, b, c, OutputStart(x, j + 1))
  {
    hide Push, Elsewhere, IsDao, IsMultisig, Amount, ArgsOf, CellShape, Destined, Add64, Zero;
  }

  function OutSum(vals: seq<Val>, j: nat): nat
    requires Fit(vals) && j <= |vals|
    decreases |vals| - j
  {
    if j == |vals| then 0 else Amount(vals[j]) + OutSum(vals, j + 1)
  }

  lemma {:induction false} OutputsStep(k: Keys, b: Book, vals: seq<Val>, j: nat)
    requires Fit(vals) && CellShapes(vals) && j < |vals|
    ensures CellShape(vals[j]) && |ArgsOf(vals[j])| <= ARG_MAX
    ensures AllOutputs(k, b, vals, j) == AllOutputs(k, NextOutput(k, b, vals[j], j), vals, j + 1)
    ensures OutSum(vals, j) == Amount(vals[j]) + OutSum(vals, j + 1)
  {
    hide OverCell, OutputEnd, OutputStart, CellShape;
  }

  lemma {:induction false} OutputsDone(k: Keys, b: Book, vals: seq<Val>)
    requires Fit(vals) && CellShapes(vals)
    ensures AllOutputs(k, b, vals, |vals|) == b && OutSum(vals, |vals|) == 0 && Gone(b) == Mod64(Gone(b) + 0)
  {
  }

  lemma {:induction false} AwaitingIs(b: Book, j: nat)
    requires Awaiting(b, j)
    ensures Consistent(b)
  {
    hide Consistent, Opened;
  }

  lemma {:induction false} OutputsGone(k: Keys, b: Book, vals: seq<Val>, j: nat)
    requires Fit(vals) && CellShapes(vals) && j <= |vals| && Awaiting(b, j)
    ensures var r := AllOutputs(k, b, vals, j);
            && Consistent(r) && r.spent == b.spent && r.src == b.src && r.long == b.long && (b.shown.unsafe ==> r.shown.unsafe)
            && (!r.shown.unsafe ==> Gone(r) == Mod64(Gone(b) + OutSum(vals, j)))
    decreases |vals| - j
  {
    hide *;
    AwaitingIs(b, j);
    if j < |vals| {
      OutputsStep(k, b, vals, j);
      NextEffect(k, b, vals[j], j);
      OutputsGone(k, NextOutput(k, b, vals[j], j), vals, j + 1);
      ModAdd(Gone(b) + Amount(vals[j]), OutSum(vals, j + 1));
    } else {
      OutputsDone(k, b, vals);
    }
  }

  // ---------- Destinations ----------

  /** A lock argument that is at most a key hash, or a multisig lock's hash and period. */
  predicate Plain(c: Val)
    requires CellShape(c)
  {
    |ArgsOf(c)| <= 20 || (IsMultisig(c) && |ArgsOf(c)| <= ARG_MAX)
  }

  /** The output goes to another address. */
  predicate GoesOut(k: Keys, c: Val)
    requires CellShape(c)
  {
    IsMultisig(c) || Differs(ArgsOf(c), k.change)
  }

  lemma {:induction false} GoesOutIs(k: Keys, b: Book, c: Val)
    requires CellShape(c) && Plain(c)
    ensures Elsewhere(k, b, c) || IsMultisig(c) <==> GoesOut(k, c)
  {
    if !IsMultisig(c) {
      var args := ArgsOf(c);
      if Differs(args, k.change) {
        var i :| 0 <= i < |args| && i < 20 && args[i] != k.change[i];
        assert args[i] != (k.change + b.owner)[i];
      }
      if Elsewhere(k, b, c) {
        var i :| 0 <= i < |args| && i < |k.change + b.owner| && args[i] != (k.change + b.owner)[i];
        assert args[i] != k.change[i];
      }
    }
  }

  predicate AllPlain(vals: seq<Val>) {
    forall i | 0 <= i < |vals| :: CellShape(vals[i]) && Plain(vals[i])
  }

  lemma {:induction false} PlainFits(vals: seq<Val>)
    requires AllPlain(vals)
    ensures Fit(vals) && CellShapes(vals)
  {
    hide CellShape, IsMultisig, ArgsOf;
  }

  /** The payments to other addresses, in order. */
  function Paid(k: Keys, vals: seq<Val>, j: nat): seq<Entry>
    requires AllPlain(vals) && j <= |vals|
    decreases |vals| - j
  {
    if j == |vals| then []
    else (if !IsDao(vals[j]) && GoesOut(k, vals[j]) then [Destined(vals[j])] else []) + Paid(k, vals, j + 1)
  }

  function PushAll(es: seq<Entry>, xs: seq<Entry>): seq<Entry>
    decreases |xs|
  {
    if xs == [] then es else PushAll(Push(es, xs[0]), xs[1..])
  }

  lemma {:induction false} PushAllCompress(xs: seq<Entry>, ys: seq<Entry>)
    ensures PushAll(Compress(xs), ys) == Compress(xs + ys)
    decreases |ys|
  {
    hide Compress, Push;
    if ys == [] {
      assert xs + ys == xs;
    } else {
      PushCompress(xs, ys[0]);
      PushAllCompress(xs + [ys[0]], ys[1..]);
      assert xs + [ys[0]] + ys[1..] == xs + ys;
    }
  }

  lemma {:induction false} OutputsEntries(k: Keys, b: Book, vals: seq<Val>, j: nat)
    requires AllPlain(vals) && Fit(vals) && CellShapes(vals) && j <= |vals| && Awaiting(b, j)
    ensures var r := AllOutputs(k, b, vals, j); !r.shown.unsafe ==> r.sent.entries == PushAll(b.sent.entries, Paid(k, vals, j))
    decreases |vals| - j
  {
    hide *;
    if j < |vals| {
      OutputsStep(k, b, vals, j);
      var b1 := NextOutput(k, b, vals[j], j);
      NextEffect(k, b, vals[j], j);
      OutputsGone(k, b1, vals, j + 1);
      OutputsEntries(k, b1, vals, j + 1);
      if !b1.shown.unsafe { EntriesStep(k, b, vals, j, b1); }
    } else {
      OutputsDone(k, b, vals);
      PaidDone(k, b.sent.entries, vals);
    }
  }

  lemma {:induction false} PaidDone(k: Keys, es: seq<Entry>, vals: seq<Val>)
    requires AllPlain(vals)
    ensures PushAll(es, Paid(k, vals, |vals|)) == es
  {
  }

  lemma {:induction false} EntriesStep(k: Keys, b: Book, vals: seq<Val>, j: nat, r: Book)
    requires AllPlain(vals) && j < |vals| && CellShape(vals[j]) && |ArgsOf(vals[j])| <= ARG_MAX && Passed(k, b, vals[j], r)
    ensures PushAll(b.sent.entries, Paid(k, vals, j)) == PushAll(r.sent.entries, Paid(k, vals, j + 1))
  {
    var c, rest := vals[j], Paid(k, vals, j + 1);
    GoesOutIs(k, b, c);
    assert ([Destined(c)] + rest)[1..] == rest && [] + rest == rest;
    hide Elsewhere, GoesOut, IsDao, IsMultisig, Amount, ArgsOf, CellShape, Destined, Push, Add64;
  }

  /** The destinations are the run-length compression of the payments, in order. */
  lemma {:induction false} Coalesced(k: Keys, b: Book, vals: seq<Val>)
    requires AllPlain(vals) && Fit(vals) && CellShapes(vals) && Awaiting(b, 0) && b.sent.entries == []
    ensures var r := AllOutputs(k, b, vals, 0);
            && Consistent(r)
            && (!r.shown.unsafe ==> r.sent.entries == Compress(Paid(k, vals, 0)))
  {
    OutputsGone(k, b, vals, 0);
    OutputsEntries(k, b, vals, 0);
    PushAllCompress([], Paid(k, vals, 0));
    assert Compress([]) == [] && [] + Paid(k, vals, 0) == Paid(k, vals, 0);
    hide *;
  }
}
