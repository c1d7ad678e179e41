/** The signing command over any sequence of messages from the host. */
module Session {
  import opened Words
  import opened Schema
  import opened Automaton
  import opened Views
  import opened Reader
  import opened Lifting
  import opened Encoding
  import opened RoundTrip
  import opened Chunking
  import opened Transaction
  import opened Shapes
  import opened Hashing
  import opened Rewrite
  import opened Signing
  import L = Ledger
  import T = LedgerTotal
  import A = Accounting
  import S = SignedDigest
  import H = Hasher
  import B = Bookkeeper

  const MAX_APDU_SIZE := 230

  /** A message of the host: its first parameter and its data. */
  datatype Apdu = Apdu(p1: u8, data: seq<u8>)
  {
    /** `P1_LAST_MARKER`, `P1_NO_FALLBACK` and the rest of the parameter. */
    predicate Last() { p1 >= 0x80 }
    predicate SecureOnly() { p1 % 0x80 >= 0x40 }
    function Kind(): nat { p1 % 0x40 }
  }

  /** The parameter is a mark for the last piece, a wish to refuse rather than sign blindly, and the kind. */
  lemma {:induction false} ParameterIs(a: Apdu)
    ensures a.p1 == (if a.Last() then 0x80 else 0) + (if a.SecureOnly() then 0x40 else 0) + a.Kind() && a.Kind() < 0x40
  {
  }

  datatype Code = WRONG_LENGTH | PARSE_ERROR | SECURITY | REJECTED

  datatype Reply = Ok | Prompt(op: L.Op) | Throw(code: Code)

  datatype Exchange = Exchange(apdu: Apdu, reply: Reply)

  /** A chunk handed to the reader, and whether it was marked as the last. */
  datatype Piece = Piece(data: seq<u8>, last: bool)

  /** The chunks the reader was given since the state was last cleared: by an error, or by a first
      message. */
  function Pieces(history: seq<Exchange>): seq<Piece> {
    if history == [] then []
    else
      var before, x := history[..|history| - 1], history[|history| - 1];
      var piece := Piece(x.apdu.data, x.apdu.Last());
      if x.reply.Throw? then []
      else if x.apdu.Kind() == 0 then [piece]
      else if x.apdu.Kind() == 1 then Pieces(before) + [piece]
      else Pieces(before)
  }

  function DataOf(pieces: seq<Piece>): (chunks: seq<seq<u8>>)
    ensures |chunks| == |pieces|
  {
    seq(|pieces|, i requires 0 <= i < |pieces| => pieces[i].data)
  }

  /** The reader's answer to these chunks. */
  function Answer(chunks: seq<seq<u8>>): Res {
    Feed(AnnotatedTx(), NUM_MAX, Init(AnnotatedTx()), chunks)
  }

  /** The reader asked for more after every unmarked chunk, and was complete after every marked one. */
  predicate Marked(pieces: seq<Piece>) {
    forall i | 0 <= i < |pieces| :: Answer(DataOf(pieces)[..i + 1]).rv == if pieces[i].last then COMPLETE else INCOMPLETE
  }

  /** Some log that says the same as the reader's callbacks leads to this state. */
  ghost predicate Reached(hash: Hash, keys: L.Keys, chunks: seq<seq<u8>>, d: Desk) {
    exists ev :: Same(AnnotatedTx(), Answer(chunks).ev, ev) && d == RunBoth(hash, keys, FreshDesk(), ev)
  }

  /** `unsafe` and `hard_reject`. */
  predicate Unsafe(d: Desk) {
    d.book.shown.unsafe || d.digest.refused
  }

  predicate Hard(d: Desk) {
    d.book.shown.hard || d.digest.hardReject
  }

  /** Neither was raised. */
  predicate Clean(d: Desk) {
    !Unsafe(d) && !Hard(d)
  }

  /** The operations there is a prompt for. */
  predicate Promptable(op: L.Op) {
    op != L.NONE && op != L.NOT_SET
  }

  /** A prompt is shown only for a message all of which was read, as marked, without any flag. */
  ghost predicate Justified(hash: Hash, keys: L.Keys, history: seq<Exchange>, op: L.Op) {
    var pieces := Pieces(history);
    && Promptable(op) && pieces != [] && Marked(pieces) && Answer(DataOf(pieces)).rv == COMPLETE
    && exists d :: Reached(hash, keys, DataOf(pieces), d) && Clean(d) && d.book.shown.tag == op
  }

  /** The last of the pieces was marked as the last of the message. */
  predicate Ended(pieces: seq<Piece>) {
    pieces != [] && pieces[|pieces| - 1].last
  }

  /** The answer to a chunk after which the reader says what the mark says, in the state it leads to. */
  function Outcome(apdu: Apdu, d: Desk): Reply {
    if !apdu.Last() then Ok
    else if Hard(d) then Throw(PARSE_ERROR)
    else if Unsafe(d) then Throw(if apdu.SecureOnly() then SECURITY else REJECTED)
    else if Promptable(d.book.shown.tag) then Prompt(d.book.shown.tag)
    else Throw(REJECTED)
  }

  /** The answer that is due to a chunk, when `from` has been read: a parse error if the message was
      rejected before, or if the reader does not say what the mark says. */
  ghost predicate DueRead(hash: Hash, keys: L.Keys, from: seq<Piece>, apdu: Apdu, reply: Reply) {
    exists d0 ::
      && Reached(hash, keys, DataOf(from), d0)
      && if Hard(d0) || Answer(DataOf(from) + [apdu.data]).rv != (if apdu.Last() then COMPLETE else INCOMPLETE)
         then reply == Throw(PARSE_ERROR)
         else exists d :: Reached(hash, keys, DataOf(from) + [apdu.data], d) && reply == Outcome(apdu, d)
  }

  /** The answer that is due to a message, when the pieces `before` have been read since the state was
      last cleared. */
  ghost predicate Due(hash: Hash, keys: L.Keys, before: seq<Piece>, apdu: Apdu, reply: Reply) {
    if |apdu.data| > MAX_APDU_SIZE then reply == Throw(WRONG_LENGTH)
    else if apdu.Kind() <= 1 then DueRead(hash, keys, if apdu.Kind() == 0 then [] else before, apdu, reply)
    else if apdu.Last() && Ended(before) then exists d :: Reached(hash, keys, DataOf(before), d) && Clean(d) && reply == Outcome(apdu, d)
    else reply == Ok
  }

  /** Every message got the answer that was due. */
  ghost predicate Fair(hash: Hash, keys: L.Keys, history: seq<Exchange>) {
    forall i | 0 <= i < |history| :: Due(hash, keys, Pieces(history[..i]), history[i].apdu, history[i].reply)
  }

  ghost predicate Safe(hash: Hash, keys: L.Keys, history: seq<Exchange>) {
    forall i | 0 <= i < |history| && history[i].reply.Prompt? :: Justified(hash, keys, history[..i + 1], history[i].reply.op)
  }

  lemma {:induction false} FeedSnoc(chunks: seq<seq<u8>>, st: St, c: seq<u8>)
    ensures var f := Feed(AnnotatedTx(), NUM_MAX, st, chunks);
            Feed(AnnotatedTx(), NUM_MAX, st, chunks + [c])
            == if f.rv == INCOMPLETE then Then(f.ev, f.used, Go(AnnotatedTx(), NUM_MAX, f.st, c)) else f
    decreases |chunks|
  {
    hide Go, AnnotatedTx;
    if chunks == [] {
      assert [] + [c] == [c] && [c][1..] == [];
      var r := Go(AnnotatedTx(), NUM_MAX, st, c);
      assert r.ev + [] == r.ev && [] + r.ev == r.ev;
    } else {
      var r := Go(AnnotatedTx(), NUM_MAX, st, chunks[0]);
      assert (chunks + [c])[1..] == chunks[1..] + [c];
      if r.rv == INCOMPLETE {
        FeedSnoc(chunks[1..], r.st, c);
        var f := Feed(AnnotatedTx(), NUM_MAX, r.st, chunks[1..]);
        ThenThen(r.ev, r.used, f.ev, f.used, Go(AnnotatedTx(), NUM_MAX, f.st, c));
      }
    }
  }

  /** A chunk after which the reader answers as it is marked keeps the pieces marked. */
  lemma {:induction false} MarkedNext(pieces: seq<Piece>, p: Piece)
    requires Marked(pieces) && Answer(DataOf(pieces) + [p.data]).rv == if p.last then COMPLETE else INCOMPLETE
    ensures DataOf(pieces + [p]) == DataOf(pieces) + [p.data] && Marked(pieces + [p])
  {
    var all := pieces + [p];
    assert DataOf(all) == DataOf(pieces) + [p.data];
    forall i | 0 <= i < |all| ensures Answer(DataOf(all)[..i + 1]).rv == if all[i].last then COMPLETE else INCOMPLETE {
      if i < |pieces| {
        assert DataOf(all)[..i + 1] == DataOf(pieces)[..i + 1];
      } else {
        assert DataOf(all)[..i + 1] == DataOf(all);
      }
    }
  }

  lemma {:induction false} SafeNext(hash: Hash, keys: L.Keys, history: seq<Exchange>, x: Exchange)
    requires Safe(hash, keys, history) && (x.reply.Prompt? ==> Justified(hash, keys, history + [x], x.reply.op))
    ensures Safe(hash, keys, history + [x])
  {
    var all := history + [x];
    hide Justified;
    forall i | 0 <= i < |all| && all[i].reply.Prompt? ensures Justified(hash, keys, all[..i + 1], all[i].reply.op) {
      if i < |history| { assert all[..i + 1] == history[..i + 1]; } else { assert all[..i + 1] == all; }
    }
  }

  lemma {:induction false} FairNext(hash: Hash, keys: L.Keys, history: seq<Exchange>, x: Exchange)
    requires Fair(hash, keys, history) && Due(hash, keys, Pieces(history), x.apdu, x.reply)
    ensures Fair(hash, keys, history + [x])
  {
    var all := history + [x];
    hide Due, Pieces;
    forall i | 0 <= i < |all| ensures Due(hash, keys, Pieces(all[..i]), all[i].apdu, all[i].reply) {
      assert all[..i] == history[..i];
      if i == |history| { assert all[..i] == history; }
    }
  }

  lemma {:induction false} PiecesNext(history: seq<Exchange>, x: Exchange)
    ensures Pieces(history + [x])
         == if x.reply.Throw? then []
            else if x.apdu.Kind() == 0 then [Piece(x.apdu.data, x.apdu.Last())]
            else if x.apdu.Kind() == 1 then Pieces(history) + [Piece(x.apdu.data, x.apdu.Last())]
            else Pieces(history)
  {
    var all := history + [x];
    assert all[..|all| - 1] == history && all[|all| - 1] == x;
  }

  /** What a justified prompt means for a message of the kind the theorems are about: the operation
      and amounts shown are those of its cells and, unless a multisig input is signed, the digest to
      be signed is its own. */
  lemma {:induction false} PromptMeans(hash: Hash, keys: L.Keys, history: seq<Exchange>, op: L.Op, v: Val, a: Val)
    requires IsHash(hash) && S.Signable(v, a) && A.Countable(T.RawOf(v))
    requires Justified(hash, keys, history, op) && Join(DataOf(Pieces(history))) == Encode(AnnotatedTx(), v)
    ensures exists d :: Reached(hash, keys, DataOf(Pieces(history)), d) && d.book == T.Accounts(keys, T.RawOf(v))
                        && !d.book.shown.unsafe && d.book.shown.tag == op
                        && (!d.book.spent.multisig ==> S.Digested(hash, v, a, d.digest))
  {
    var chunks := DataOf(Pieces(history));
    var d :| Reached(hash, keys, chunks, d) && Clean(d) && d.book.shown.tag == op;
    assert chunks != [];
    assert Unsafe(d) == (d.book.shown.unsafe || d.digest.refused) && !d.book.shown.unsafe;
    assert Typed(AnnotatedTx(), v) && |Encode(AnnotatedTx(), v)| < U32_SIZE;
    hide *;
    ReachedMeans(hash, keys, v, a, chunks, d);
  }

  lemma {:induction false} ReachedMeans(hash: Hash, keys: L.Keys, v: Val, a: Val, chunks: seq<seq<u8>>, d: Desk)
    requires IsHash(hash) && S.Signable(v, a) && A.Countable(T.RawOf(v))
    requires chunks != [] && Join(chunks) == Encode(AnnotatedTx(), v) && Reached(hash, keys, chunks, d) && !d.book.shown.unsafe
    ensures d.book == T.Accounts(keys, T.RawOf(v)) && (!d.book.spent.multisig ==> S.Digested(hash, v, a, d.digest))
  {
    var r := Answer(chunks);
    var ev :| Same(AnnotatedTx(), r.ev, ev) && d == RunBoth(hash, keys, FreshDesk(), ev);
    assert r == Feed(AnnotatedTx(), NUM_MAX, Init(AnnotatedTx()), chunks);
    L.NoChunks(L.LEDGER, AnnotatedTx());
    assert Typed(AnnotatedTx(), v) && |Encode(AnnotatedTx(), v)| < U32_SIZE;
    hide *;
    LogMeans(hash, keys, v, a, chunks, r, ev);
  }

  lemma {:induction false} LogMeans(hash: Hash, keys: L.Keys, v: Val, a: Val, chunks: seq<seq<u8>>, r: Res, ev: seq<Event>)
    requires IsHash(hash) && S.Signable(v, a) && A.Countable(T.RawOf(v))
    requires chunks != [] && Join(chunks) == Encode(AnnotatedTx(), v)
    requires r == Feed(AnnotatedTx(), NUM_MAX, Init(AnnotatedTx()), chunks) && Same(AnnotatedTx(), r.ev, ev)
    requires !RunBoth(hash, keys, FreshDesk(), ev).book.shown.unsafe
    ensures var d := RunBoth(hash, keys, FreshDesk(), ev);
            d.book == T.Accounts(keys, T.RawOf(v)) && (!d.book.spent.multisig ==> S.Digested(hash, v, a, d.digest))
  {
    SameViews(r.ev, ev);
    assert Typed(AnnotatedTx(), v) && |Encode(AnnotatedTx(), v)| < U32_SIZE;
    hide *;
    SignsWhatIsShown(hash, keys, v, a, chunks);
    DeskIs();
    Apart(hash, keys, FreshDesk(), ev);
    Apart(hash, keys, FreshDesk(), r.ev);
    SameBook(keys, T.RawOf(v), r.ev, ev);
    SameDigests(hash, r.ev, ev);
  }

  lemma {:induction false} SameViews(x: seq<Event>, y: seq<Event>)
    requires Same(AnnotatedTx(), x, y)
    ensures View(L.LEDGER, x) == View(L.LEDGER, y) && View(HASHING, x) == View(HASHING, y)
  {
    L.NoChunks(L.LEDGER, AnnotatedTx());
    MessageAnti();
    hide View, AnnotatedTx, Anti;
  }

  lemma {:induction false} SameBook(keys: L.Keys, v: Val, x: seq<Event>, y: seq<Event>)
    requires T.RawForm(v) && A.Countable(v) && View(L.LEDGER, x) == View(L.LEDGER, y)
    requires L.Run(keys, L.Cleared(), x) == T.Accounts(keys, v)
    ensures L.Run(keys, L.Cleared(), y) == L.Run(keys, L.Cleared(), x)
  {
    hide *;
    A.ValueConserved(keys, v);
    L.RunWhole(keys, L.Cleared(), x);
    L.RunView(keys, L.Cleared(), y);
  }

  lemma {:induction false} SameDigests(hash: Hash, x: seq<Event>, y: seq<Event>)
    requires View(HASHING, x) == View(HASHING, y)
    ensures Run(hash, FRESH, x) == Run(hash, FRESH, y)
  {
    S.FreshCalm();
    hide *;
    RunView(hash, FRESH, x);
    RunView(hash, FRESH, y);
  }

  // ---------- The device ----------

  /** The reader's state between two messages: at work, or done with a whole transaction. A reader that
      is done answers COMPLETE again without reading anything. */
  datatype Stack = At(st: St) | Finished

  /** The books and hash states that the callbacks of a log update. */
  class Signer {
    const hash: Hash
    const keys: L.Keys
    const hasher: H.Hasher
    const keeper: B.Bookkeeper

    ghost predicate Valid()
      reads this, hasher, keeper, keeper.outputs
    {
      hasher.Valid() && keeper.Valid() && hasher.hash == hash && keeper.keys == keys
    }

    ghost function Abs(): Desk
      reads this, hasher, keeper, keeper.outputs
      requires Valid()
    {
      Desk(hasher.Abs(), keeper.Abs())
    }

    constructor (hash: Hash, keys: L.Keys)
      ensures Valid() && Abs() == FreshDesk() && this.hash == hash && this.keys == keys
      ensures fresh(hasher) && fresh(keeper) && fresh(keeper.outputs)
    {
      this.hash, this.keys := hash, keys;
      hasher := new H.Hasher(hash);
      keeper := new B.Bookkeeper(keys);
    }

    method Reset()
      requires Valid()
      modifies hasher, keeper, keeper.outputs
      ensures Valid() && Abs() == FreshDesk()
    {
      hasher.Reset();
      keeper.Reset();
    }

    /** One callback, on both. */
    method On(e: Event)
      requires Valid()
      modifies hasher, keeper, keeper.outputs
      ensures Valid() && Abs() == Both(hash, keys, old(Abs()), e)
    {
      hide Apply, L.Apply, L.Rejects;
      hasher.SetMultisig(keeper.spent.multisig);
      if e == End(RawTx) {
        var rejects := keeper.WillReject();
        hasher.flagged := rejects;
      }
      hasher.On(e);
      keeper.On(e);
    }

    /** The verdict so far. */
    method Look() returns (unsafe: bool, hard: bool, tag: L.Op)
      requires Valid()
      ensures unsafe == Unsafe(Abs()) && hard == Hard(Abs()) && tag == Abs().book.shown.tag
    {
      unsafe, tag := keeper.shown.unsafe || hasher.refused, keeper.shown.tag;
      hard := keeper.shown.hard || hasher.hardReject;
    }

    /** The callbacks of a log, one after the other. */
    method Run(events: seq<Event>)
      requires Valid()
      modifies hasher, keeper, keeper.outputs
      ensures Valid() && Abs() == RunBoth(hash, keys, old(Abs()), events)
    {
      hide Both;
      var i := 0;
      assert events[0..] == events;
      while i < |events|
        invariant i <= |events| && Valid()
        invariant RunBoth(hash, keys, Abs(), events[i..]) == RunBoth(hash, keys, old(Abs()), events)
      {
        BothStep(hash, keys, Abs(), events, i);
        On(events[i]);
        i := i + 1;
      }
    }
  }

  lemma {:induction false} BothStep(hash: Hash, keys: L.Keys, d: Desk, ev: seq<Event>, i: nat)
    requires i < |ev|
    ensures RunBoth(hash, keys, d, ev[i..]) == RunBoth(hash, keys, Both(hash, keys, d, ev[i]), ev[i + 1..])
  {
    assert ev[i..][0] == ev[i] && ev[i..][1..] == ev[i + 1..];
    hide Both;
  }

  /** The reader's progress since the state was cleared: `events` says what its callbacks said. */
  ghost predicate Progress(chunks: seq<seq<u8>>, stack: Stack, events: seq<Event>, used: nat) {
    match stack
    case At(st) => Sound(AnnotatedTx(), st) && Eqv(AnnotatedTx(), Answer(chunks), Res(INCOMPLETE, st, events, used))
    case Finished => Answer(chunks).rv == COMPLETE && Same(AnnotatedTx(), Answer(chunks).ev, events)
  }

  lemma {:induction false} ProgressStart()
    ensures Wf(AnnotatedTx()) && Progress([], At(Init(AnnotatedTx())), [], 0)
  {
    MessagesRegular();
    RegularWf(AnnotatedTx());
    InitSound(AnnotatedTx());
  }

  /** Before the first message. */
  lemma {:induction false} NothingYet(hash: Hash, keys: L.Keys)
    ensures DataOf([]) == [] && Marked([]) && Safe(hash, keys, []) && Fair(hash, keys, []) && Pieces([]) == []
    ensures Progress(DataOf([]), At(Init(AnnotatedTx())), [], 0) && RunBoth(hash, keys, FreshDesk(), []) == FreshDesk()
  {
    assert DataOf([]) == [];
    hide Progress, FreshDesk, Justified, Answer;
    ProgressStart();
  }

  /** One more chunk. */
  lemma {:induction false} ProgressNext(chunks: seq<seq<u8>>, st: St, events: seq<Event>, used: nat, c: seq<u8>, rv: Rv, st': St,
                                        ev: seq<Event>, n: nat)
    requires Progress(chunks, At(st), events, used) && Agrees(AnnotatedTx(), Go(AnnotatedTx(), NUM_MAX, st, c), rv, st', ev, n)
    requires rv == INCOMPLETE ==> Sound(AnnotatedTx(), st')
    ensures Answer(chunks + [c]).rv == rv
    ensures rv == INCOMPLETE ==> Progress(chunks + [c], At(st'), events + ev, used + n)
    ensures rv == COMPLETE ==> Progress(chunks + [c], Finished, events + ev, used + n)
  {
    var f, g := Answer(chunks), Go(AnnotatedTx(), NUM_MAX, st, c);
    FeedSnoc(chunks, Init(AnnotatedTx()), c);
    assert f.st == st && Answer(chunks + [c]) == Then(f.ev, f.used, g);
    if rv != REJECT { SamePlus(AnnotatedTx(), f.ev, events, g.ev, ev); }
    hide AnnotatedTx, Same, Go, Sound, Feed;
  }

  lemma {:induction false} Advanced(hash: Hash, keys: L.Keys, pieces: seq<Piece>, st: St, events: seq<Event>, used: nat, c: seq<u8>, rv: Rv, st': St,
                                    ev: seq<Event>, n: nat)
    requires Marked(pieces) && Progress(DataOf(pieces), At(st), events, used) && rv != REJECT
    requires Agrees(AnnotatedTx(), Go(AnnotatedTx(), NUM_MAX, st, c), rv, st', ev, n) && (rv == INCOMPLETE ==> Sound(AnnotatedTx(), st'))
    ensures var all := pieces + [Piece(c, rv == COMPLETE)];
            Marked(all) && Progress(DataOf(all), if rv == COMPLETE then Finished else At(st'), events + ev, used + n)
    ensures RunBoth(hash, keys, RunBoth(hash, keys, FreshDesk(), events), ev) == RunBoth(hash, keys, FreshDesk(), events + ev)
  {
    hide *;
    ProgressNext(DataOf(pieces), st, events, used, c, rv, st', ev, n);
    MarkedNext(pieces, Piece(c, rv == COMPLETE));
    BothPlus(hash, keys, FreshDesk(), events, ev);
  }

  lemma {:induction false} ProgressDone(chunks: seq<seq<u8>>, events: seq<Event>, used: nat, c: seq<u8>)
    requires Progress(chunks, Finished, events, used)
    ensures Answer(chunks + [c]).rv == COMPLETE && Progress(chunks + [c], Finished, events, used)
  {
    FeedSnoc(chunks, Init(AnnotatedTx()), c);
  }

  lemma {:induction false} DataPlus(pieces: seq<Piece>, p: Piece)
    ensures DataOf(pieces + [p]) == DataOf(pieces) + [p.data]
  {
  }

  /** The reader took a chunk, and answered as it is marked. */
  ghost predicate Taken(hash: Hash, keys: L.Keys, from: seq<Piece>, apdu: Apdu) {
    exists d0 ::
      && Reached(hash, keys, DataOf(from), d0) && !Hard(d0)
      && Answer(DataOf(from) + [apdu.data]).rv == if apdu.Last() then COMPLETE else INCOMPLETE
  }

  lemma {:induction false} DueParse(hash: Hash, keys: L.Keys, from: seq<Piece>, apdu: Apdu, d0: Desk)
    requires Reached(hash, keys, DataOf(from), d0)
    requires Hard(d0) || Answer(DataOf(from) + [apdu.data]).rv != (if apdu.Last() then COMPLETE else INCOMPLETE)
    ensures DueRead(hash, keys, from, apdu, Throw(PARSE_ERROR))
  {
    hide Reached, Answer, DataOf, Outcome, Hard;
  }

  lemma {:induction false} DueOutcome(hash: Hash, keys: L.Keys, from: seq<Piece>, apdu: Apdu, d0: Desk, d: Desk)
    requires Reached(hash, keys, DataOf(from), d0) && !Hard(d0) && Reached(hash, keys, DataOf(from) + [apdu.data], d)
    requires Answer(DataOf(from) + [apdu.data]).rv == if apdu.Last() then COMPLETE else INCOMPLETE
    ensures DueRead(hash, keys, from, apdu, Outcome(apdu, d))
  {
    hide Reached, Answer, DataOf, Outcome, Hard;
  }

  lemma {:induction false} TakenDue(hash: Hash, keys: L.Keys, from: seq<Piece>, apdu: Apdu, d: Desk)
    requires Taken(hash, keys, from, apdu) && Reached(hash, keys, DataOf(from) + [apdu.data], d)
    ensures DueRead(hash, keys, from, apdu, Outcome(apdu, d))
  {
    hide Reached, Answer, DataOf, Outcome, Hard, DueRead;
    var d0 :| Reached(hash, keys, DataOf(from), d0) && !Hard(d0)
              && Answer(DataOf(from) + [apdu.data]).rv == if apdu.Last() then COMPLETE else INCOMPLETE;
    DueOutcome(hash, keys, from, apdu, d0, d);
  }

  lemma {:induction false} OutcomeIs(apdu: Apdu, d: Desk)
    ensures !apdu.Last() ==> Outcome(apdu, d) == Ok
    ensures apdu.Last() && Clean(d) ==>
              Outcome(apdu, d) == if Promptable(d.book.shown.tag) then Prompt(d.book.shown.tag) else Throw(REJECTED)
  {
  }

  /** The signing command. `history` records every message and the answer to it, `pieces` the chunks
      since the state was last cleared, and `events` what the reader's callbacks said of them. */
  class Session {
    const hash: Hash
    const keys: L.Keys
    const signer: Signer
    var stack: Stack
    var isValid: bool
    ghost var history: seq<Exchange>
    ghost var pieces: seq<Piece>
    ghost var events: seq<Event>
    ghost var used: nat

    ghost function Footprint(): set<object>
      reads this, signer
    {
      {this, signer.hasher, signer.keeper, signer.keeper.outputs}
    }

    /** The state is what the pieces led to. */
    ghost predicate Linked()
      reads Footprint(), signer
    {
      && signer.Valid() && signer.hash == hash && signer.keys == keys
      && Marked(pieces) && Progress(DataOf(pieces), stack, events, used)
      && signer.Abs() == RunBoth(hash, keys, FreshDesk(), events)
      && (isValid ==> pieces != [] && stack == Finished && Clean(signer.Abs()))
    }

    ghost predicate Valid()
      reads Footprint(), signer
    {
      Linked() && Safe(hash, keys, history) && Fair(hash, keys, history) && pieces == Pieces(history) && (Ended(pieces) ==> isValid)
    }

    constructor (hash: Hash, keys: L.Keys)
      ensures Valid() && history == [] && this.hash == hash && this.keys == keys
      ensures fresh(Footprint()) && fresh(signer)
    {
      hide FreshDesk, Signer.Abs, Signer.Valid, Safe, Linked, Pieces;
      this.hash, this.keys := hash, keys;
      signer := new Signer(hash, keys);
      stack, isValid := At(Init(AnnotatedTx())), false;
      history, pieces, events, used := [], [], [], 0;
      new;
      BlankValid();
    }

    lemma {:induction false} BlankValid()
      requires signer.Valid() && signer.hash == hash && signer.keys == keys && signer.Abs() == FreshDesk()
      requires stack == At(Init(AnnotatedTx())) && !isValid && history == [] && pieces == [] && events == [] && used == 0
      ensures Valid()
    {
      hide RunBoth, Progress, FreshDesk, Answer, Safe, Pieces, DataOf, Marked, Signer.Abs, Signer.Valid, Clean;
      NothingYet(hash, keys);
    }

    /** `clear_data`. */
    method Clear()
      requires signer.Valid() && signer.hash == hash && signer.keys == keys
      modifies this`stack, this`isValid, this`pieces, this`events, this`used, signer.hasher, signer.keeper, signer.keeper.outputs
      ensures Linked() && pieces == [] && !isValid
    {
      hide RunBoth, Progress, FreshDesk, Answer, DataOf, Marked, Signer.Abs, Signer.Valid;
      NothingYet(hash, keys);
      signer.Reset();
      stack, isValid := At(Init(AnnotatedTx())), false;
      pieces, events, used := [], [], 0;
    }

    /** Hands a chunk to the reader, and runs the callbacks it fires. */
    method Advance(data: seq<u8>) returns (rv: Rv)
      requires Linked()
      modifies this`stack, this`pieces, this`events, this`used, signer.hasher, signer.keeper, signer.keeper.outputs
      ensures signer.Valid() && rv == Answer(DataOf(old(pieces)) + [data]).rv
      ensures rv != REJECT ==> pieces == old(pieces) + [Piece(data, rv == COMPLETE)]
      ensures rv != REJECT ==> Linked() && (rv == COMPLETE <==> stack == Finished)
    {
      if stack == Finished {
        ProgressDone(DataOf(pieces), events, used, data);
        MarkedNext(pieces, Piece(data, true));
        pieces := pieces + [Piece(data, true)];
        rv := COMPLETE;
        hide RunBoth, Progress, Answer, FreshDesk, Marked;
      } else {
        rv := Read(data);
      }
    }

    /** One call of the reader, and its callbacks. */
    method Call(st: St, data: seq<u8>) returns (rv: Rv, st': St, ghost ev: seq<Event>, ghost n: nat)
      requires signer.Valid() && Wf(AnnotatedTx()) && Sound(AnnotatedTx(), st)
      modifies signer.hasher, signer.keeper, signer.keeper.outputs
      ensures signer.Valid() && signer.Abs() == RunBoth(signer.hash, signer.keys, old(signer.Abs()), ev)
      ensures Agrees(AnnotatedTx(), Go(AnnotatedTx(), NUM_MAX, st, data), rv, st', ev, n)
      ensures rv == INCOMPLETE ==> Sound(AnnotatedTx(), st')
    {
      hide Go, Sound, AnnotatedTx, RunBoth, Wf, Eqv, Signer.Abs;
      var chunk := new Cursor(data);
      var log := new Trace();
      rv, st', ev := Parse(AnnotatedTx(), NUM_MAX, st, chunk, log);
      n := chunk.consumed;
      assert log.events == ev;
      signer.Run(log.events);
    }

    /** A chunk for a reader that is not done. */
    method Read(data: seq<u8>) returns (rv: Rv)
      requires Linked() && stack != Finished
      modifies this`stack, this`pieces, this`events, this`used, signer.hasher, signer.keeper, signer.keeper.outputs
      ensures signer.Valid() && rv == Answer(DataOf(old(pieces)) + [data]).rv
      ensures rv != REJECT ==> pieces == old(pieces) + [Piece(data, rv == COMPLETE)]
      ensures rv != REJECT ==> Linked() && (rv == COMPLETE <==> stack == Finished)
    {
      ProgressStart();
      SoundNow(DataOf(pieces), stack, events, used);
      assert Progress(DataOf(pieces), At(stack.st), events, used);
      hide Go, Sound, AnnotatedTx, RunBoth, Answer, FreshDesk, Marked, Wf, Progress, Signer.Abs, Signer.Valid, Agrees, DataOf, Clean;
      var st;
      ghost var ev, n;
      rv, st, ev, n := Call(stack.st, data);
      ProgressNext(DataOf(pieces), stack.st, events, used, data, rv, st, ev, n);
      if rv != REJECT { Update(data, rv, st, ev, n); }
    }

    /** The reader's new state, and what its callbacks said. */
    method Update(data: seq<u8>, rv: Rv, st: St, ghost ev: seq<Event>, ghost n: nat)
      requires signer.Valid() && signer.hash == hash && signer.keys == keys && !isValid && stack != Finished && rv != REJECT
      requires Marked(pieces) && Progress(DataOf(pieces), At(stack.st), events, used)
      requires Agrees(AnnotatedTx(), Go(AnnotatedTx(), NUM_MAX, stack.st, data), rv, st, ev, n) && (rv == INCOMPLETE ==> Sound(AnnotatedTx(), st))
      requires signer.Abs() == RunBoth(hash, keys, RunBoth(hash, keys, FreshDesk(), events), ev)
      modifies this`stack, this`pieces, this`events, this`used
      ensures pieces == old(pieces) + [Piece(data, rv == COMPLETE)] && Linked() && (rv == COMPLETE <==> stack == Finished)
    {
      hide Go, Sound, AnnotatedTx, RunBoth, Answer, FreshDesk, Marked, Progress, Signer.Abs, Signer.Valid, Agrees, DataOf, Clean, Same, Eqv;
      Advanced(hash, keys, pieces, stack.st, events, used, data, rv, st, ev, n);
      ghost var now := if rv == COMPLETE then Finished else At(st);
      ghost var all := pieces + [Piece(data, rv == COMPLETE)];
      assert Marked(all) && Progress(DataOf(all), now, events + ev, used + n);
      stack := if rv == COMPLETE then Finished else At(st);
      pieces, events, used := pieces + [Piece(data, rv == COMPLETE)], events + ev, used + n;
    }

    /** An error: `clear_apdu_globals`, and a status word. */
    method Fail(apdu: Apdu, code: Code) returns (reply: Reply)
      requires signer.Valid() && signer.hash == hash && signer.keys == keys && Safe(hash, keys, history) && Fair(hash, keys, history)
      requires Due(hash, keys, Pieces(history), apdu, Throw(code))
      modifies Footprint()
      ensures Valid() && reply == Throw(code) && history == old(history) + [Exchange(apdu, reply)]
    {
      hide Safe, Fair, Due, Marked, Progress, RunBoth, Answer, FreshDesk, Signer.Abs, Pieces, Justified;
      Clear();
      reply := Throw(code);
      ghost var x := Exchange(apdu, reply);
      PiecesNext(history, x);
      SafeNext(hash, keys, history, x);
      FairNext(hash, keys, history, x);
      history := history + [x];
    }

    lemma {:induction false} ReachedNow()
      requires Linked()
      ensures Reached(hash, keys, DataOf(pieces), signer.Abs())
    {
      hide Marked, RunBoth, Answer, FreshDesk, Signer.Abs, DataOf, Same, Sound, AnnotatedTx;
      assert Same(AnnotatedTx(), Answer(DataOf(pieces)).ev, events);
    }

    /** A chunk, and what is made of the reader's answer to it. A message that is complete but unsafe
        becomes an operation for which there is no prompt, so it is refused either way. */
    method Chunk(apdu: Apdu) returns (failed: bool, code: Code)
      requires Linked()
      modifies this`stack, this`isValid, this`pieces, this`events, this`used, signer.hasher, signer.keeper, signer.keeper.outputs
      ensures signer.Valid()
      ensures failed ==> DueRead(hash, keys, old(pieces), apdu, Throw(code))
      ensures !failed ==> Linked() && pieces == old(pieces) + [Piece(apdu.data, apdu.Last())] && (apdu.Last() ==> isValid)
      ensures !failed ==> Taken(hash, keys, old(pieces), apdu)
    {
      hide RunBoth, Answer, Signer.Abs, Progress, Marked, FreshDesk, DataOf, Reached, DueRead;
      failed, code := true, PARSE_ERROR;
      ghost var from, d0 := pieces, signer.Abs();
      ReachedNow();
      var unsafe, hard, tag := signer.Look();
      if hard {
        DueParse(hash, keys, from, apdu, d0);
        return;
      }
      var rv := Advance(apdu.data);
      unsafe, hard, tag := signer.Look();
      if apdu.Last() {
        if rv != COMPLETE || hard {
          if rv != COMPLETE { DueParse(hash, keys, from, apdu, d0); } else { RefusedNow(from, d0, apdu, PARSE_ERROR); }
          return;
        }
        if unsafe {
          code := if apdu.SecureOnly() then SECURITY else REJECTED;
          RefusedNow(from, d0, apdu, code);
          return;
        }
        isValid := true;
      } else if rv != INCOMPLETE {
        DueParse(hash, keys, from, apdu, d0);
        return;
      }
      failed := false;
    }

    lemma {:induction false} RefusedNow(from: seq<Piece>, d0: Desk, apdu: Apdu, code: Code)
      requires Linked() && pieces == from + [Piece(apdu.data, true)] && apdu.Last()
      requires Reached(hash, keys, DataOf(from), d0) && !Hard(d0) && Answer(DataOf(from) + [apdu.data]).rv == COMPLETE
      requires Outcome(apdu, signer.Abs()) == Throw(code)
      ensures DueRead(hash, keys, from, apdu, Throw(code))
    {
      hide RunBoth, Answer, Signer.Abs, Progress, Marked, FreshDesk, Reached, DueRead, Outcome, DataOf;
      ReachedNow();
      DataPlus(from, Piece(apdu.data, true));
      DueOutcome(hash, keys, from, apdu, d0, signer.Abs());
    }

    /** `handle_apdu`: every message gets the answer that is due. */
    method HandleApdu(apdu: Apdu) returns (reply: Reply)
      requires Valid()
      modifies Footprint()
      ensures Valid() && history == old(history) + [Exchange(apdu, reply)]
      ensures Due(hash, keys, Pieces(old(history)), apdu, reply)
    {
      hide RunBoth, Answer, Signer.Abs, Safe, Fair, Progress, Marked, FreshDesk, DataOf, Pieces, DueRead, Reached, Outcome;
      if |apdu.data| > MAX_APDU_SIZE {
        reply := Fail(apdu, WRONG_LENGTH);
        return;
      }
      if apdu.Kind() == 0 { Clear(); }
      if apdu.Kind() <= 1 {
        var failed, code := Chunk(apdu);
        if failed {
          reply := Fail(apdu, code);
          return;
        }
      }
      ValidEnds(pieces);
      ghost var d := signer.Abs();
      ReachedNow();
      if apdu.Last() && isValid {
        var _, _, tag := signer.Look();
        assert Clean(d);
        OutcomeIs(apdu, d);
        if !Promptable(tag) {
          Settled(apdu, Throw(REJECTED));
          reply := Fail(apdu, REJECTED);
          return;
        }
        reply := Prompt(tag);
      } else {
        OutcomeIs(apdu, d);
        reply := Ok;
      }
      Settled(apdu, reply);
      Record(apdu, reply);
    }

    lemma {:induction false} ValidEnds(all: seq<Piece>)
      requires Linked() && all == pieces
      ensures isValid ==> Ended(all)
    {
      hide RunBoth, Answer, Signer.Abs, FreshDesk, Same, Sound, AnnotatedTx, Clean;
      if isValid {
        var n := |pieces|;
        assert DataOf(pieces)[..n] == DataOf(pieces);
        assert pieces[n - 1].last;
      }
    }

    /** The answer from a state that has been reached is due. */
    lemma {:induction false} Settled(apdu: Apdu, reply: Reply)
      requires Linked() && |apdu.data| <= MAX_APDU_SIZE
      requires var d, from := signer.Abs(), if apdu.Kind() == 0 then [] else Pieces(history);
               && Reached(hash, keys, DataOf(pieces), d)
               && if apdu.Kind() <= 1 then
                    && pieces == from + [Piece(apdu.data, apdu.Last())] && Taken(hash, keys, from, apdu) && reply == Outcome(apdu, d)
                  else
                    && pieces == from && (isValid <==> Ended(from))
                    && if apdu.Last() && isValid then Clean(d) && reply == Outcome(apdu, d) else reply == Ok
      ensures Due(hash, keys, Pieces(history), apdu, reply)
    {
      hide RunBoth, Answer, Signer.Abs, Progress, Marked, FreshDesk, Reached, DueRead, Outcome, DataOf, Pieces, Signer.Valid, Clean, Ended, Taken;
      var d, from := signer.Abs(), if apdu.Kind() == 0 then [] else Pieces(history);
      if apdu.Kind() <= 1 {
        DataPlus(from, Piece(apdu.data, apdu.Last()));
        TakenDue(hash, keys, from, apdu, d);
      }
    }

    /** The answer is recorded. */
    ghost method Record(apdu: Apdu, reply: Reply)
      requires Linked() && Safe(hash, keys, history) && Fair(hash, keys, history) && !reply.Throw? && (Ended(pieces) ==> isValid)
      requires Due(hash, keys, Pieces(history), apdu, reply)
      requires pieces == if apdu.Kind() == 0 then [Piece(apdu.data, apdu.Last())]
                         else if apdu.Kind() == 1 then Pieces(history) + [Piece(apdu.data, apdu.Last())] else Pieces(history)
      requires reply.Prompt? ==> isValid && Promptable(reply.op) && signer.Abs().book.shown.tag == reply.op
      modifies this`history
      ensures Valid() && history == old(history) + [Exchange(apdu, reply)]
    {
      hide Safe, Fair, Due, Marked, Progress, RunBoth, Answer, FreshDesk, Signer.Abs, Pieces, DataOf, Justified, Promptable, Clean;
      var x := Exchange(apdu, reply);
      PiecesNext(history, x);
      if reply.Prompt? { JustifiedNow(history + [x], reply.op); }
      SafeNext(hash, keys, history, x);
      FairNext(hash, keys, history, x);
      history := history + [x];
    }

    lemma {:induction false} JustifiedNow(after: seq<Exchange>, op: L.Op)
      requires Linked() && isValid && Promptable(op) && signer.Abs().book.shown.tag == op && Pieces(after) == pieces
      ensures Justified(hash, keys, after, op)
    {
      var d := signer.Abs();
      assert Reached(hash, keys, DataOf(pieces), d);
      hide Marked, RunBoth, Answer, FreshDesk, Signer.Abs, Pieces, DataOf, Same, Reached;
    }
  }

  /** Any sequence of messages. Every prompt along the way is justified by what came before it, and every
      message gets the answer that is due. */
  method Serve(hash: Hash, keys: L.Keys, apdus: seq<Apdu>) returns (history: seq<Exchange>)
    ensures |history| == |apdus| && forall i | 0 <= i < |apdus| :: history[i].apdu == apdus[i]
    ensures Safe(hash, keys, history) && Fair(hash, keys, history)
  {
    hide Safe, Fair, Due, Session.Linked, Pieces;
    var session := new Session(hash, keys);
    history := [];
    var i := 0;
    while i < |apdus|
      invariant i == |history| <= |apdus| && session.Valid() && session.history == history
      invariant session.hash == hash && session.keys == keys && fresh(session.Footprint())
      invariant forall j | 0 <= j < i :: history[j].apdu == apdus[j]
    {
      var reply := session.HandleApdu(apdus[i]);
      history := history + [Exchange(apdus[i], reply)];
      i := i + 1;
    }
  }

  lemma {:induction false} SoundNow(chunks: seq<seq<u8>>, stack: Stack, events: seq<Event>, used: nat)
    requires Progress(chunks, stack, events, used) && stack != Finished
    ensures Sound(AnnotatedTx(), stack.st)
  {
  }
}
