/** A message that is sent as it should be is answered as its cells deserve. */
module Served {
  import opened Words
  import opened Schema
  import opened Automaton
  import opened Views
  import opened Encoding
  import opened RoundTrip
  import opened Chunking
  import opened Transaction
  import opened Shapes
  import opened Hashing
  import opened Signing
  import opened Session
  import L = Ledger
  import T = LedgerTotal
  import A = Accounting
  import F = Refusals
  import O = Operations
  import D = Display
  import C = Conservation
  import P = Payments
  import B = ReservedByte
  import G = MultisigDigest
  import M = MultisigWitness
  import S = SignedDigest

  // ---------- Operations ----------

  lemma {:induction false} PayNone(b: L.Book)
    ensures L.Pay(b).shown.tag == L.NONE ==> b.shown.tag == L.NONE
  {
    hide L.Credit, L.SamePlace, L.Add64;
  }

  lemma {:induction false} InputNone(k: L.Keys, b: L.Book)
    ensures L.LockEnd(b).shown.tag == b.shown.tag && (L.InputData(k, b).shown.tag == L.NONE ==> b.shown.tag == L.NONE)
  {
    DaoNone(b);
    hide L.DaoInput, L.Add64, Add32;
  }

  lemma {:induction false} DaoNone(b: L.Book)
    ensures L.DaoInput(b).shown.tag == L.NONE ==> b.shown.tag == L.NONE
  {
    hide L.Add64;
  }

  lemma {:induction false} OutputNone(b: L.Book)
    ensures L.OutputEnd(b).shown.tag == L.NONE ==> b.shown.tag == L.NONE
  {
    PayNone(b);
    hide L.Pay, L.Add64, L.ShiftBit;
  }

  lemma {:induction false} OutputsNone(k: L.Keys, b: L.Book)
    ensures L.OutputsEnd(k, b).shown.tag == b.shown.tag
  {
    hide L.Zero;
  }

  lemma {:induction false} RejectTag(b: L.Book)
    ensures L.Reject(b).shown.tag == b.shown.tag
  {
  }

  lemma {:induction false} BecomeTag(b: L.Book, op: L.Op)
    ensures L.Become(b, op).shown.tag == op || L.Become(b, op).shown.tag == b.shown.tag
  {
    RejectTag(b);
    hide L.Reject;
  }

  lemma {:induction false} DatumNone(k: L.Keys, b: L.Book)
    ensures L.OutputData(k, b).shown.tag == L.NONE ==> b.shown.tag == L.NONE
  {
    BecomeTag(b, L.PREPARE);
    BecomeTag(b, L.DEPOSIT);
    RejectTag(b);
    hide L.Become, L.Reject;
  }

  lemma {:induction false} FinalNone(b: L.Book)
    ensures L.Finalize(b).shown.tag == L.NONE ==> b.shown.tag == L.NONE
  {
    hide L.Amounts, L.Rejects, L.Balance, L.Sub64;
  }

  lemma {:induction false} EndNone(k: L.Keys, b: L.Book, t: Tag)
    ensures L.OnEnd(k, b, t).shown.tag == L.NONE ==> b.shown.tag == L.NONE
  {
    InputNone(k, b);
    OutputNone(b);
    OutputsNone(k, b);
    DatumNone(k, b);
    FinalNone(b);
    hide L.LockEnd, L.InputData, L.OutputEnd, L.OutputsEnd, L.OutputData, L.Finalize;
  }

  lemma {:induction false} DataNone(k: L.Keys, b: L.Book, t: Tag, bs: seq<u8>)
    ensures L.OnLeaf(k, b, t, bs).shown.tag == b.shown.tag && L.OnBody(k, b, t, bs).shown.tag == b.shown.tag
  {
    hide L.DefaultLock, L.MultisigLock, L.DaoType, L.Splice, L.Differs, L.HasNonzero, Unpack, L.Unpack64, L.Expected;
  }

  lemma {:induction false} ApplyNone(k: L.Keys, b: L.Book, e: Event)
    ensures L.Apply(k, b, e).shown.tag == L.NONE ==> b.shown.tag == L.NONE
  {
    match e {
      case End(t) => EndNone(k, b, t);
      case Leaf(t, bs) => DataNone(k, b, t, bs);
      case Body(t, bs) => DataNone(k, b, t, bs);
      case _ =>
    }
    hide L.OnLeaf, L.OnBody, L.OnEnd, L.Zero;
  }

  lemma {:induction false} RunNone(k: L.Keys, b: L.Book, ev: seq<Event>)
    ensures L.Run(k, b, ev).shown.tag == L.NONE ==> b.shown.tag == L.NONE
    decreases |ev|
  {
    if ev != [] {
      ApplyNone(k, b, ev[0]);
      hide L.Apply;
      RunNone(k, L.Apply(k, b, ev[0]), ev[1..]);
    }
  }

  lemma {:induction false} FinalSet(b: L.Book)
    requires !L.Finalize(b).shown.unsafe
    ensures L.Finalize(b).shown.tag != L.NOT_SET
  {
    A.FinalIs(b);
    hide L.Finalize;
  }

  /** There is a prompt for every transaction that is not flagged. */
  lemma {:induction false} AlwaysPromptable(keys: L.Keys, v: Val, ev: seq<Event>)
    requires T.RawForm(v) && !T.Accounts(keys, v).shown.unsafe && L.Run(keys, L.Cleared(), ev) == T.Accounts(keys, v)
    ensures Promptable(T.Accounts(keys, v).shown.tag)
  {
    A.AccountsIs(keys, v);
    FinalSet(T.AfterData(keys, v));
    RunNone(keys, L.Cleared(), ev);
    hide T.Accounts, T.AfterData, L.Finalize, T.RawForm, L.Run;
  }

  // ---------- Reserved bytes ----------

  lemma {:induction false} BodyPlain(d: Digest, t: Tag, bs: seq<u8>)
    requires !d.multisig
    ensures OnBody(d, t, bs).refused == d.refused
  {
    if d.args.Parsing? { B.PlainRefused(d, Automaton.Go(WitnessArgs(), NUM_MAX, d.args.st, bs).ev); }
    hide Pass, Go, WitnessArgs;
  }

  lemma {:induction false} ApplyPlain(H: Hash, d: Digest, e: Event)
    requires !d.multisig
    ensures Apply(H, d, e).refused == d.refused
  {
    match e {
      case Body(t, bs) => BodyPlain(d, t, bs);
      case _ => OtherPlain(H, d, e);
    }
    hide OnBody;
  }

  lemma {:induction false} OtherPlain(H: Hash, d: Digest, e: Event)
    requires !e.Body?
    ensures Apply(H, d, e).refused == d.refused
  {
    EndPlain(H, d, e.tag);
    InnerPlain(d, e);
    LeafPlain(d, e);
    hide OnBody, OnEnd, OnInner, OnLeaf, OnChunk;
  }

  lemma {:induction false} EndPlain(H: Hash, d: Digest, t: Tag)
    ensures OnEnd(H, d, t).refused == d.refused
  {
  }

  lemma {:induction false} InnerPlain(d: Digest, e: Event)
    ensures OnInner(d, e).refused == d.refused
  {
    hide NewHeader, Pack, Pack64, Init, WitnessArgs;
  }

  lemma {:induction false} LeafPlain(d: Digest, e: Event)
    ensures e.Leaf? ==> OnLeaf(d, e.tag, e.bytes).refused == d.refused
    ensures e.Chunk? ==> OnChunk(d, e.tag, e.bytes).refused == d.refused
  {
    hide Unpack;
  }

  /** Without a multisig input no script is looked at. */
  lemma {:induction false} NotRefused(H: Hash, k: L.Keys, d: Desk, ev: seq<Event>)
    requires !L.Run(k, d.book, ev).spent.multisig
    ensures RunBoth(H, k, d, ev).digest.refused == d.digest.refused
    decreases |ev|
  {
    if ev == [] {
    } else {
      var b1 := L.Apply(k, d.book, ev[0]);
      MultisigRuns(k, b1, ev[1..]);
      MultisigStays(k, d.book, ev[0]);
      var d0 := Informed(d, ev[0]);
      assert !d0.multisig && d0.refused == d.digest.refused by { hide L.Rejects; }
      ApplyPlain(H, d0, ev[0]);
      assert Both(H, k, d, ev[0]).book == b1 && Both(H, k, d, ev[0]).digest.refused == d.digest.refused by { hide Apply, L.Apply, Informed; }
      hide Apply, L.Apply, Informed, Both;
      NotRefused(H, k, Both(H, k, d, ev[0]), ev[1..]);
    }
  }

  // ---------- The state reached ----------

  /** The states that a whole message leads to, however it is cut. */
  lemma {:induction false} WholeReached(hash: Hash, keys: L.Keys, v: Val, chunks: seq<seq<u8>>, d: Desk)
    requires Typed(AnnotatedTx(), v) && |Encode(AnnotatedTx(), v)| < U32_SIZE && A.Countable(T.RawOf(v)) && !F.Miscounted(v)
    requires chunks != [] && Join(chunks) == Encode(AnnotatedTx(), v) && Reached(hash, keys, chunks, d)
    ensures var r := T.Accounts(keys, T.RawOf(v));
            && !Hard(d) && d.book == r && (!r.spent.multisig ==> !d.digest.refused) && (!r.shown.unsafe ==> Promptable(r.shown.tag))
            && (B.Readable(v) ==> (d.digest.refused <==> r.spent.multisig && B.ReservedSet(v)))
  {
    var x := Answer(chunks).ev;
    var ev :| Same(AnnotatedTx(), x, ev) && d == RunBoth(hash, keys, FreshDesk(), ev);
    assert x == Feed(AnnotatedTx(), NUM_MAX, Init(AnnotatedTx()), chunks).ev;
    assert Hard(d) == (d.book.shown.hard || d.digest.hardReject);
    A.CountableIs(T.RawOf(v));
    hide *;
    SameViews(x, ev);
    A.ShownWhole(keys, v, chunks);
    SameBook(keys, T.RawOf(v), x, ev);
    DeskIs();
    FreshRefused();
    Apart(hash, keys, FreshDesk(), ev);
    F.RefusedExactly(hash, keys, v, chunks, ev);
    if !T.Accounts(keys, T.RawOf(v)).spent.multisig { NotRefused(hash, keys, FreshDesk(), ev); }
    if !T.Accounts(keys, T.RawOf(v)).shown.unsafe { AlwaysPromptable(keys, T.RawOf(v), ev); }
    if B.Readable(v) { B.ReservedExactly(hash, keys, v, chunks, ev); }
  }

  lemma {:induction false} FreshRefused()
    ensures !FreshDesk().digest.refused
  {
  }

  lemma {:induction false} PrefixReached(hash: Hash, keys: L.Keys, v: Val, chunks: seq<seq<u8>>, n: nat, d: Desk)
    requires Typed(AnnotatedTx(), v) && |Encode(AnnotatedTx(), v)| < U32_SIZE && !F.Miscounted(v)
    requires chunks != [] && Join(chunks) == Encode(AnnotatedTx(), v) && n <= |chunks| && Reached(hash, keys, chunks[..n], d)
    ensures !Hard(d)
  {
    var x := Answer(chunks[..n]).ev;
    var ev :| Same(AnnotatedTx(), x, ev) && d == RunBoth(hash, keys, FreshDesk(), ev);
    assert x == Feed(AnnotatedTx(), NUM_MAX, Init(AnnotatedTx()), chunks[..n]).ev;
    assert Hard(d) == (d.book.shown.hard || d.digest.hardReject);
    hide *;
    F.NeverRefused(hash, keys, v, chunks, n, ev);
  }

  // ---------- A message in a session ----------

  /** The messages of the host carry these chunks, in order: the first says so, and the last. */
  predicate Carries(xs: seq<Exchange>, chunks: seq<seq<u8>>) {
    && |xs| == |chunks| > 0
    && forall i | 0 <= i < |xs| ::
         && xs[i].apdu.data == chunks[i] && |chunks[i]| <= MAX_APDU_SIZE
         && xs[i].apdu.Kind() == (if i == 0 then 0 else 1) && (xs[i].apdu.Last() <==> i == |xs| - 1)
  }

  /** The reader's answers while the message arrives. */
  lemma {:induction false} AnswersOf(v: Val, chunks: seq<seq<u8>>, n: nat)
    requires Typed(AnnotatedTx(), v) && |Encode(AnnotatedTx(), v)| < U32_SIZE
    requires chunks != [] && Join(chunks) == Encode(AnnotatedTx(), v) && chunks[|chunks| - 1] != [] && 0 < n <= |chunks|
    ensures Answer(chunks[..n]).rv == if n == |chunks| then COMPLETE else INCOMPLETE
  {
    MessagesRegular();
    assert chunks[..|chunks|] == chunks;
    hide Encode, Typed, AnnotatedTx, Feed, Join, Regular;
    FeedTrip(AnnotatedTx(), NUM_MAX, v, chunks);
    if n < |chunks| { ShortPrefix(chunks, n); }
  }

  lemma {:induction false} ShortPrefix(chunks: seq<seq<u8>>, n: nat)
    requires n < |chunks| && chunks[|chunks| - 1] != []
    ensures |Join(chunks[..n])| < |Join(chunks)|
  {
    hide Join;
    var m := |chunks| - 1;
    JoinUpTo(chunks, m);
    assert chunks[..m][..n] == chunks[..n];
    JoinSplit(chunks[..m], n);
  }

  /** A history in which this message follows on what was before, and each part of it got its due. */
  ghost predicate Follows(hash: Hash, keys: L.Keys, earlier: seq<Exchange>, xs: seq<Exchange>) {
    forall i | 0 <= i < |xs| :: Due(hash, keys, Pieces(earlier + xs[..i]), xs[i].apdu, xs[i].reply)
  }

  lemma {:induction false} FairFollows(hash: Hash, keys: L.Keys, earlier: seq<Exchange>, xs: seq<Exchange>, later: seq<Exchange>)
    requires Fair(hash, keys, earlier + xs + later)
    ensures Follows(hash, keys, earlier, xs)
  {
    var all := earlier + xs + later;
    hide Due, Pieces;
    forall i | 0 <= i < |xs| ensures Due(hash, keys, Pieces(earlier + xs[..i]), xs[i].apdu, xs[i].reply) {
      assert all[|earlier| + i] == xs[i] && all[..|earlier| + i] == earlier + xs[..i];
    }
  }

  predicate AllOk(xs: seq<Exchange>, n: nat) {
    forall i | 0 <= i < n && i < |xs| :: xs[i].reply == Ok
  }

  /** The pieces when `n` chunks of the message have been read. */
  lemma {:induction false} PiecesWhile(earlier: seq<Exchange>, xs: seq<Exchange>, chunks: seq<seq<u8>>, n: nat)
    requires Carries(xs, chunks) && 0 < n < |xs| && AllOk(xs, n)
    ensures DataOf(Pieces(earlier + xs[..n])) == chunks[..n]
    decreases n
  {
    var before, x := earlier + xs[..n - 1], xs[n - 1];
    assert earlier + xs[..n] == before + [x];
    PiecesNext(before, x);
    var p := Piece(x.apdu.data, x.apdu.Last());
    assert x.reply == Ok && x.apdu.data == chunks[n - 1] && x.apdu.Kind() == if n == 1 then 0 else 1;
    if n > 1 {
      PiecesWhile(earlier, xs, chunks, n - 1);
      DataPlus(Pieces(before), p);
      assert chunks[..n] == chunks[..n - 1] + [chunks[n - 1]];
    } else {
      DataPlus([], p);
      assert [] + [p] == [p] && DataOf([]) == [];
      assert chunks[..1] == [chunks[0]];
    }
  }

  /** What is due to chunk `n`. */
  lemma {:induction false} ReadDue(hash: Hash, keys: L.Keys, earlier: seq<Exchange>, xs: seq<Exchange>, chunks: seq<seq<u8>>, n: nat) returns (from: seq<Piece>)
    requires Follows(hash, keys, earlier, xs) && Carries(xs, chunks) && n < |xs| && AllOk(xs, n)
    ensures DataOf(from) == chunks[..n] && DataOf(from) + [xs[n].apdu.data] == chunks[..n + 1] && DueRead(hash, keys, from, xs[n].apdu, xs[n].reply)
  {
    hide Due, DueRead, Pieces, Follows, AllOk;
    var x, before := xs[n], Pieces(earlier + xs[..n]);
    from := if n == 0 then [] else before;
    FollowsAt(hash, keys, earlier, xs, n);
    DueIs(hash, keys, before, x.apdu, x.reply);
    if n > 0 { PiecesWhile(earlier, xs, chunks, n); }
    assert chunks[..n + 1] == chunks[..n] + [chunks[n]];
  }

  lemma {:induction false} FollowsAt(hash: Hash, keys: L.Keys, earlier: seq<Exchange>, xs: seq<Exchange>, n: nat)
    requires Follows(hash, keys, earlier, xs) && n < |xs|
    ensures Due(hash, keys, Pieces(earlier + xs[..n]), xs[n].apdu, xs[n].reply)
  {
    hide Due, Pieces;
  }

  lemma {:induction false} DueIs(hash: Hash, keys: L.Keys, before: seq<Piece>, apdu: Apdu, reply: Reply)
    requires Due(hash, keys, before, apdu, reply) && |apdu.data| <= MAX_APDU_SIZE && apdu.Kind() <= 1
    ensures DueRead(hash, keys, if apdu.Kind() == 0 then [] else before, apdu, reply)
  {
    hide DueRead;
  }

  /** A chunk is answered from a state that the chunks up to it lead to. */
  ghost predicate Answered(hash: Hash, keys: L.Keys, chunks: seq<seq<u8>>, x: Exchange) {
    exists d :: Reached(hash, keys, chunks, d) && x.reply == Outcome(x.apdu, d)
  }

  lemma {:induction false} OneAnswer(hash: Hash, keys: L.Keys, earlier: seq<Exchange>, xs: seq<Exchange>, v: Val, chunks: seq<seq<u8>>, n: nat)
    requires Follows(hash, keys, earlier, xs) && Carries(xs, chunks) && n < |xs| && AllOk(xs, n)
    requires Typed(AnnotatedTx(), v) && |Encode(AnnotatedTx(), v)| < U32_SIZE && !F.Miscounted(v)
    requires Join(chunks) == Encode(AnnotatedTx(), v) && chunks[|chunks| - 1] != []
    ensures Answered(hash, keys, chunks[..n + 1], xs[n])
  {
    CarriesIs(xs, chunks, n);
    hide *;
    var from := ReadDue(hash, keys, earlier, xs, chunks, n);
    AnswersOf(v, chunks, n + 1);
    forall d0 | Reached(hash, keys, chunks[..n], d0) ensures !Hard(d0) { PrefixReached(hash, keys, v, chunks, n, d0); }
    FromDue(hash, keys, from, chunks, n, xs[n]);
  }

  lemma {:induction false} CarriesIs(xs: seq<Exchange>, chunks: seq<seq<u8>>, n: nat)
    requires Carries(xs, chunks) && n < |xs|
    ensures |xs| == |chunks| > 0 && chunks != [] && (xs[n].apdu.Last() <==> n == |chunks| - 1)
  {
  }

  lemma {:induction false} FromDue(hash: Hash, keys: L.Keys, from: seq<Piece>, chunks: seq<seq<u8>>, n: nat, x: Exchange)
    requires n < |chunks| && DataOf(from) == chunks[..n] && DataOf(from) + [x.apdu.data] == chunks[..n + 1] && DueRead(hash, keys, from, x.apdu, x.reply)
    requires forall d0 | Reached(hash, keys, chunks[..n], d0) :: !Hard(d0)
    requires Answer(chunks[..n + 1]).rv == (if x.apdu.Last() then COMPLETE else INCOMPLETE)
    ensures Answered(hash, keys, chunks[..n + 1], x)
  {
    hide Reached, Answer, DataOf, Outcome, Hard;
  }

  lemma {:induction false} OkSoFar(hash: Hash, keys: L.Keys, earlier: seq<Exchange>, xs: seq<Exchange>, v: Val, chunks: seq<seq<u8>>, n: nat)
    requires Follows(hash, keys, earlier, xs) && Carries(xs, chunks) && n < |xs|
    requires Typed(AnnotatedTx(), v) && |Encode(AnnotatedTx(), v)| < U32_SIZE && !F.Miscounted(v)
    requires Join(chunks) == Encode(AnnotatedTx(), v) && chunks[|chunks| - 1] != []
    ensures AllOk(xs, n)
    decreases n
  {
    hide Follows, Carries, Typed, Encode, AnnotatedTx, F.Miscounted, Join, Reached, Answered, AllOk;
    if n > 0 {
      CarriesIs(xs, chunks, n - 1);
      OkSoFar(hash, keys, earlier, xs, v, chunks, n - 1);
      OneAnswer(hash, keys, earlier, xs, v, chunks, n - 1);
      OkNext(hash, keys, xs, chunks[..n], n - 1);
    } else {
      OkNone(xs);
    }
  }

  lemma {:induction false} OkNone(xs: seq<Exchange>)
    ensures AllOk(xs, 0)
  {
  }

  lemma {:induction false} OkNext(hash: Hash, keys: L.Keys, xs: seq<Exchange>, chunks: seq<seq<u8>>, n: nat)
    requires n < |xs| && AllOk(xs, n) && Answered(hash, keys, chunks, xs[n]) && !xs[n].apdu.Last()
    ensures AllOk(xs, n + 1)
  {
    hide Reached;
  }

  /** Whatever happened before, a whole message that is cut and marked as it should be, and has the number
      of inputs it announces, is accepted chunk by chunk, and is answered in the end as its cells
      deserve: with the prompt for their operation or, if they are flagged, with the error that was asked
      for. Only a multisig script can still be refused, and it is exactly if its reserved byte is not zero. */
  lemma {:induction false} MessageServed(hash: Hash, keys: L.Keys, earlier: seq<Exchange>, xs: seq<Exchange>, later: seq<Exchange>, v: Val, chunks: seq<seq<u8>>)
    requires Fair(hash, keys, earlier + xs + later) && Carries(xs, chunks)
    requires Typed(AnnotatedTx(), v) && |Encode(AnnotatedTx(), v)| < U32_SIZE && A.Countable(T.RawOf(v)) && !F.Miscounted(v)
    requires Join(chunks) == Encode(AnnotatedTx(), v) && chunks[|chunks| - 1] != []
    ensures forall i | 0 <= i < |xs| - 1 :: xs[i].reply == Ok
    ensures var r, last := T.Accounts(keys, T.RawOf(v)), xs[|xs| - 1];
            var refused := Throw(if last.apdu.SecureOnly() then SECURITY else REJECTED);
            if r.shown.unsafe then last.reply == refused
            else last.reply == Prompt(r.shown.tag) || (r.spent.multisig && last.reply == refused)
    ensures var r, reply := T.Accounts(keys, T.RawOf(v)), xs[|xs| - 1].reply;
            B.Readable(v) && !r.shown.unsafe ==> (reply.Prompt? <==> !(r.spent.multisig && B.ReservedSet(v)))
  {
    hide Fair, Typed, Encode, AnnotatedTx, A.Countable, F.Miscounted, T.Accounts, T.RawOf, Join, Carries;
    CarriesSome(xs, chunks);
    var n := |xs| - 1;
    CarriesIs(xs, chunks, n);
    assert chunks[..n + 1] == chunks;
    hide *;
    FairFollows(hash, keys, earlier, xs, later);
    OkSoFar(hash, keys, earlier, xs, v, chunks, n);
    OneAnswer(hash, keys, earlier, xs, v, chunks, n);
    AllOkIs(xs, n);
    LastAnswer(hash, keys, v, chunks, xs[n]);
  }

  lemma {:induction false} CarriesSome(xs: seq<Exchange>, chunks: seq<seq<u8>>)
    requires Carries(xs, chunks)
    ensures |xs| == |chunks| > 0
  {
  }

  lemma {:induction false} AllOkIs(xs: seq<Exchange>, n: nat)
    requires AllOk(xs, n) && n <= |xs|
    ensures forall i | 0 <= i < n :: xs[i].reply == Ok
  {
  }

  lemma {:induction false} LastAnswer(hash: Hash, keys: L.Keys, v: Val, chunks: seq<seq<u8>>, x: Exchange)
    requires Typed(AnnotatedTx(), v) && |Encode(AnnotatedTx(), v)| < U32_SIZE && A.Countable(T.RawOf(v)) && !F.Miscounted(v)
    requires chunks != [] && Join(chunks) == Encode(AnnotatedTx(), v) && x.apdu.Last() && Answered(hash, keys, chunks, x)
    ensures var r, refused := T.Accounts(keys, T.RawOf(v)), Throw(if x.apdu.SecureOnly() then SECURITY else REJECTED);
            if r.shown.unsafe then x.reply == refused else x.reply == Prompt(r.shown.tag) || (r.spent.multisig && x.reply == refused)
    ensures var r := T.Accounts(keys, T.RawOf(v));
            B.Readable(v) && !r.shown.unsafe ==> (x.reply.Prompt? <==> !(r.spent.multisig && B.ReservedSet(v)))
  {
    var d :| Reached(hash, keys, chunks, d) && x.reply == Outcome(x.apdu, d);
    A.CountableIs(T.RawOf(v));
    hide *;
    WholeReached(hash, keys, v, chunks, d);
    LastOutcome(x.apdu, d);
  }

  lemma {:induction false} LastOutcome(apdu: Apdu, d: Desk)
    requires apdu.Last() && !Hard(d)
    ensures var refused := Throw(if apdu.SecureOnly() then SECURITY else REJECTED);
            && (d.book.shown.unsafe ==> Outcome(apdu, d) == refused)
            && (!d.book.shown.unsafe && Promptable(d.book.shown.tag) ==>
                 Outcome(apdu, d) == if d.digest.refused then refused else Prompt(d.book.shown.tag))
  {
  }

  /** Such a message, if its lock arguments are ordinary and its first witness can be read, ends in a prompt
      exactly if its cells are acceptable for some operation and no multisig cell is spent with a
      script whose reserved byte is not zero; what is prompted for, and the amounts shown, are those of
      the cells. */
  lemma {:induction false} PromptedExactly(hash: Hash, keys: L.Keys, earlier: seq<Exchange>, xs: seq<Exchange>, later: seq<Exchange>, v: Val, chunks: seq<seq<u8>>)
    requires Fair(hash, keys, earlier + xs + later) && Carries(xs, chunks)
    requires Typed(AnnotatedTx(), v) && |Encode(AnnotatedTx(), v)| < U32_SIZE && O.Ordinary(T.RawOf(v)) && !F.Miscounted(v) && B.Readable(v)
    requires var raw := T.RawOf(v); T.RawForm(raw) && C.AllInRange(A.InsOf(raw)) && P.AllPlain(A.OutsOf(raw)) && P.Fit(A.OutsOf(raw))
    requires Join(chunks) == Encode(AnnotatedTx(), v) && chunks[|chunks| - 1] != []
    ensures var raw, reply := T.RawOf(v), xs[|xs| - 1].reply;
            && (reply.Prompt? <==> (exists op :: D.Acceptable(keys, raw, op)) && !(D.AnyMultisig(A.InsOf(raw), 0) && B.ReservedSet(v)))
            && (reply.Prompt? ==> reply.op == T.Accounts(keys, raw).shown.tag)
            && forall op | D.Acceptable(keys, raw, op) :: D.ShownFor(keys, raw, op, T.Accounts(keys, raw))
  {
    var raw := T.RawOf(v);
    assert |xs| == |chunks| > 0 && chunks != [];
    hide *;
    O.OrdinaryIs(raw);
    D.WhatIsShown(keys, raw);
    MessageServed(hash, keys, earlier, xs, later, v, chunks);
    if !T.Accounts(keys, raw).shown.unsafe { D.MultisigSigned(keys, raw); }
  }

  /** What a justified prompt means when a multisig input is signed: the digest to be signed is that of the
      transaction shown, its first witness with the lock as its pieces leave it. */
  lemma {:induction false} MultisigPrompt(hash: Hash, keys: L.Keys, history: seq<Exchange>, op: L.Op, v: Val, a: Val, lock: seq<u8>)
    requires IsHash(hash) && S.Signable(v, a) && A.Countable(T.RawOf(v)) && a.vals[0] == Val.Some(Blob(lock)) && M.Multisig(lock)
    requires Justified(hash, keys, history, op) && Join(DataOf(Pieces(history))) == Encode(AnnotatedTx(), v)
    ensures exists d :: Reached(hash, keys, DataOf(Pieces(history)), d) && d.book == T.Accounts(keys, T.RawOf(v))
                        && !d.book.shown.unsafe && d.book.shown.tag == op
                        && (d.book.spent.multisig ==> exists cuts :: G.SignedAs(hash, v, a, lock, cuts, d.digest))
  {
    var chunks := DataOf(Pieces(history));
    assert chunks != [];
    hide *;
    PromptMeans(hash, keys, history, op, v, a);
    var d :| Reached(hash, keys, chunks, d) && d.book == T.Accounts(keys, T.RawOf(v)) && !d.book.shown.unsafe && d.book.shown.tag == op;
    MultisigReached(hash, keys, v, a, lock, chunks, d);
  }

  lemma {:induction false} MultisigReached(hash: Hash, keys: L.Keys, v: Val, a: Val, lock: seq<u8>, chunks: seq<seq<u8>>, d: Desk)
    requires IsHash(hash) && S.Signable(v, a) && a.vals[0] == Val.Some(Blob(lock)) && M.Multisig(lock)
    requires chunks != [] && Join(chunks) == Encode(AnnotatedTx(), v) && Reached(hash, keys, chunks, d) && !d.book.shown.unsafe
    ensures d.book.spent.multisig ==> exists cuts :: G.SignedAs(hash, v, a, lock, cuts, d.digest)
  {
    var x := Answer(chunks).ev;
    var ev :| Same(AnnotatedTx(), x, ev) && d == RunBoth(hash, keys, FreshDesk(), ev);
    assert x == Feed(AnnotatedTx(), NUM_MAX, Init(AnnotatedTx()), chunks).ev;
    hide *;
    G.MultisigSigned(hash, keys, v, a, lock, chunks, ev);
  }
}
