/** The two sets of callbacks together: what is shown and what is signed are about the same
    transaction. */
module Signing {
  import opened Words
  import opened Schema
  import opened Automaton
  import opened Views
  import opened Encoding
  import opened RoundTrip
  import opened Chunking
  import opened Transaction
  import opened Hashing
  import opened SignedDigest
  import opened Accounting
  import L = Ledger
  import T = LedgerTotal

  /** The signing state: the hash states and the accounts. */
  datatype Desk = Desk(digest: Digest, book: L.Book)

  function FreshDesk(): Desk {
    Desk(FRESH, L.Cleared())
  }

  /** What the hashing callbacks read of the accounts: whether a multisig input is signed and, at the
      end of the raw transaction, whether it has a hash. */
  function Informed(d: Desk, e: Event): Digest {
    d.digest.(multisig := d.book.spent.multisig, flagged := if e == End(RawTx) then L.Rejects(d.book) else d.digest.flagged)
  }

  /** One callback. */
  function Both(H: Hash, k: L.Keys, d: Desk, e: Event): Desk {
    Desk(Apply(H, Informed(d, e), e), L.Apply(k, d.book, e))
  }

  function RunBoth(H: Hash, k: L.Keys, d: Desk, ev: seq<Event>): Desk
    decreases |ev|
  {
    if ev == [] then d else RunBoth(H, k, Both(H, k, d, ev[0]), ev[1..])
  }

  lemma {:induction false} BothPlus(H: Hash, k: L.Keys, d: Desk, a: seq<Event>, b: seq<Event>)
    ensures RunBoth(H, k, d, a + b) == RunBoth(H, k, RunBoth(H, k, d, a), b)
    decreases |a|
  {
    if a == [] {
      assert a + b == b;
    } else {
      assert (a + b)[1..] == a[1..] + b;
      hide Both;
      BothPlus(H, k, Both(H, k, d, a[0]), a[1..], b);
    }
  }

  /** A flag stays. */
  lemma {:induction false} FlagStays(k: L.Keys, b: L.Book, e: Event)
    ensures b.shown.unsafe ==> L.Apply(k, b, e).shown.unsafe
    ensures e == End(RawTx) && L.Rejects(b) ==> L.Apply(k, b, e).shown.unsafe
  {
    if e == End(RawTx) {
      FinalIs(b);
      assert L.Apply(k, b, e) == L.Finalize(b) by { hide L.Finalize; }
      hide L.Finalize, L.Apply;
    } else {
      TagStep(k, b, e);
      hide L.Apply;
    }
  }

  lemma {:induction false} FlagRuns(k: L.Keys, b: L.Book, ev: seq<Event>)
    ensures b.shown.unsafe ==> L.Run(k, b, ev).shown.unsafe
    decreases |ev|
  {
    if ev != [] {
      FlagStays(k, b, ev[0]);
      hide L.Apply;
      FlagRuns(k, L.Apply(k, b, ev[0]), ev[1..]);
    }
  }

  /** Once a multisig input is signed, it is. */
  lemma {:induction false} MultisigStays(k: L.Keys, b: L.Book, e: Event)
    ensures b.spent.multisig ==> L.Apply(k, b, e).spent.multisig
  {
    hide L.DefaultLock, L.MultisigLock, L.DaoType, L.Splice, L.Differs, L.HasNonzero, L.Unpack64, L.Expected, L.Amounts, L.Settled, L.Balance,
      L.Credit, L.SamePlace, L.Zero, L.Rejects;
  }

  lemma {:induction false} MultisigRuns(k: L.Keys, b: L.Book, ev: seq<Event>)
    ensures b.spent.multisig ==> L.Run(k, b, ev).spent.multisig
    decreases |ev|
  {
    if ev != [] {
      MultisigStays(k, b, ev[0]);
      hide L.Apply;
      MultisigRuns(k, L.Apply(k, b, ev[0]), ev[1..]);
    }
  }

  /** The accounts run on their own; unless the transaction is flagged or a multisig input is signed,
      so do the hashes. */
  lemma {:induction false} Apart(H: Hash, k: L.Keys, d: Desk, ev: seq<Event>)
    ensures RunBoth(H, k, d, ev).book == L.Run(k, d.book, ev)
    ensures !d.digest.flagged && !d.digest.multisig && !L.Run(k, d.book, ev).shown.unsafe && !L.Run(k, d.book, ev).spent.multisig ==>
              RunBoth(H, k, d, ev).digest == Run(H, d.digest, ev)
    decreases |ev|
  {
    if ev != [] {
      var d1 := Both(H, k, d, ev[0]);
      var b1 := L.Apply(k, d.book, ev[0]);
      FlagStays(k, d.book, ev[0]);
      FlagRuns(k, b1, ev[1..]);
      MultisigStays(k, d.book, ev[0]);
      MultisigRuns(k, b1, ev[1..]);
      if !d.digest.flagged && !d.digest.multisig && !b1.shown.unsafe && !d.book.spent.multisig { SameDigest(H, k, d, ev[0]); }
      assert d1.book == b1;
      hide Apply, L.Apply, L.Rejects, Both;
      Apart(H, k, d1, ev[1..]);
    }
  }

  lemma {:induction false} SameDigest(H: Hash, k: L.Keys, d: Desk, e: Event)
    requires !d.digest.flagged && !d.digest.multisig && !d.book.spent.multisig && !(e == End(RawTx) && L.Rejects(d.book))
    ensures Both(H, k, d, e).digest == Apply(H, d.digest, e) && !Apply(H, d.digest, e).flagged && !Apply(H, d.digest, e).multisig
  {
    assert Informed(d, e) == d.digest;
    BitsStay(H, d.digest, e);
    hide Apply, L.Apply, L.Rejects, Informed;
  }

  lemma {:induction false} BitsStay(H: Hash, d: Digest, e: Event)
    ensures Apply(H, d, e).flagged == d.flagged && Apply(H, d, e).multisig == d.multisig
  {
    if e.Body? { BodyBits(d, e.tag, e.bytes); }
    EndKeeps(H, d, e.tag);
    InnerKeeps(d, e);
    LeafBits(d, e);
    hide OnBody, OnEnd, OnInner, OnLeaf, OnChunk;
  }

  lemma {:induction false} BodyBits(d: Digest, t: Tag, bs: seq<u8>)
    ensures OnBody(d, t, bs).flagged == d.flagged && OnBody(d, t, bs).multisig == d.multisig
  {
    ReadKeeps(d, bs);
    hide ReadFirst;
  }

  lemma {:induction false} LeafBits(d: Digest, e: Event)
    ensures e.Leaf? ==> OnLeaf(d, e.tag, e.bytes).flagged == d.flagged && OnLeaf(d, e.tag, e.bytes).multisig == d.multisig
    ensures e.Chunk? ==> OnChunk(d, e.tag, e.bytes).flagged == d.flagged && OnChunk(d, e.tag, e.bytes).multisig == d.multisig
  {
    hide Unpack;
  }

  /** What is signed is what is shown. For a whole message, however it arrives, the amounts shown are
      those of its cells; and if they do not flag it and no multisig input is signed, the digest signed
      is that of the very same transaction. */
  lemma {:induction false} SignsWhatIsShown(H: Hash, k: L.Keys, v: Val, a: Val, chunks: seq<seq<u8>>)
    requires IsHash(H) && Signable(v, a) && Countable(T.RawOf(v))
    requires chunks != [] && Join(chunks) == Encode(AnnotatedTx(), v)
    ensures var r := Feed(AnnotatedTx(), NUM_MAX, Init(AnnotatedTx()), chunks);
            var d := RunBoth(H, k, FreshDesk(), r.ev);
            && r.rv == COMPLETE && d.book == T.Accounts(k, T.RawOf(v))
            && (!d.book.shown.unsafe && !d.book.spent.multisig ==> Digested(H, v, a, d.digest))
  {
    assert Typed(AnnotatedTx(), v) && |Encode(AnnotatedTx(), v)| < U32_SIZE;
    hide *;
    ShownWhole(k, v, chunks);
    SignedWhole(H, v, a, false, chunks);
    DeskIs();
    Apart(H, k, FreshDesk(), Feed(AnnotatedTx(), NUM_MAX, Init(AnnotatedTx()), chunks).ev);
  }

  lemma {:induction false} DeskIs()
    ensures FreshDesk().digest == FRESH && FreshDesk().book == L.Cleared() && !FRESH.flagged && !FRESH.multisig
    ensures FRESH.(multisig := false) == FRESH
  {
  }
}
