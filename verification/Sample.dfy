/** A message that the theorems are about: one input of ours, no outputs, and an empty witness. */
module Sample {
  import opened Words
  import opened Schema
  import opened Automaton
  import opened Encoding
  import opened RoundTrip
  import opened Transaction
  import opened Ledger
  import opened LedgerCells
  import opened LedgerRuns
  import opened LedgerTotal
  import opened Spending
  import opened Inputs
  import opened Conservation
  import opened Payments
  import opened Accounting
  import S = SignedDigest
  import W = WitnessDigest
  import opened Operations
  import opened Sources
  import A = Acceptance
  import D = Display

  /** The value fits the schema, and its serialization takes at most `n` bytes. */
  ghost predicate Good(s: Schema, v: Val, n: nat) {
    Typed(s, v) && |Encode(s, v)| <= n
  }

  lemma {:induction false} JoinAtMost(parts: seq<seq<u8>>, m: nat)
    requires forall i | 0 <= i < |parts| :: |parts[i]| <= m
    ensures |Join(parts)| <= |parts| * m
  {
    if parts != [] {
      assert forall i | 0 <= i < |parts[1..]| :: parts[1..][i] == parts[i + 1];
      JoinAtMost(parts[1..], m);
    }
  }

  lemma {:induction false} GoodTable(s: Schema, v: Val, m: nat)
    requires s.Table? && v.Items? && |v.vals| == |s.fields| && forall i | 0 <= i < |s.fields| :: Good(s.fields[i], v.vals[i], m)
    ensures Good(s, v, 4 + 4 * |s.fields| + |s.fields| * m)
  {
    forall i | 0 <= i < |s.fields| ensures Typed(s.fields[i], v.vals[i]) { assert Good(s.fields[i], v.vals[i], m); }
    var parts := Parts(s, v.vals, 0);
    forall i | 0 <= i < |parts| ensures |parts[i]| <= m { assert Good(s.fields[i], v.vals[i], m) && Kid(s, i) == s.fields[i]; }
    JoinAtMost(parts, m);
  }

  lemma {:induction false} GoodVec(s: Schema, v: Val, m: nat)
    requires s.DynVec? && v.Items? && forall i | 0 <= i < |v.vals| :: Good(s.item, v.vals[i], m)
    ensures Good(s, v, 4 + 4 * |v.vals| + |v.vals| * m)
  {
    forall i | 0 <= i < |v.vals| ensures Typed(s.item, v.vals[i]) { assert Good(s.item, v.vals[i], m); }
    var parts := Parts(s, v.vals, 0);
    forall i | 0 <= i < |parts| ensures |parts[i]| <= m { assert Good(s.item, v.vals[i], m) && Kid(s, i) == s.item; }
    JoinAtMost(parts, m);
  }

  lemma {:induction false} GoodPair(s: Schema, v: Val, m: nat)
    requires s.Struct? && |s.fields| == 2 && v.Items? && |v.vals| == 2
    requires Good(s.fields[0], v.vals[0], m) && Good(s.fields[1], v.vals[1], m)
    ensures Good(s, v, 2 * m)
  {
    var parts := Parts(s, v.vals, 0);
    assert Kid(s, 0) == s.fields[0] && Kid(s, 1) == s.fields[1];
    JoinAtMost(parts, m);
  }

  lemma {:induction false} GoodLeaf(s: Schema, v: Val)
    requires v.Blob? && (s.Array? ==> |v.bytes| == s.n) && (s.Byte? ==> |v.bytes| == 1) && (s.Array? || s.Byte? || s.Bytes?)
    ensures Good(s, v, |v.bytes| + 4)
  {
  }

  lemma {:induction false} GoodEmpty(s: Schema)
    requires s.FixVec? || s.DynVec?
    ensures Good(s, Items([]), 4)
  {
    assert Join([]) == [];
  }

  lemma {:induction false} GoodNone(s: Schema)
    requires s.Option?
    ensures Good(s, Val.None, 0)
  {
  }

  lemma {:induction false} Wider(s: Schema, v: Val, m: nat, n: nat)
    requires Good(s, v, m) && m <= n
    ensures Good(s, v, n)
  {
    hide Typed, Encode;
  }

  function LockScriptOf(k: Keys): Val {
    Items([Blob(DefaultLock()), Blob([1]), Blob(k.current)])
  }

  /** A cell that holds nothing, locked for us. */
  function CellOf(k: Keys): Val {
    Items([Blob(Zero(8)), LockScriptOf(k), Val.None])
  }

  function SourceOf(k: Keys): Val {
    Items([Blob(Zero(4)), Items([]), Items([]), Items([]), Items([CellOf(k)]), Items([Blob([])])])
  }

  function InputOf(k: Keys): Val {
    Items([Items([Blob(Zero(8)), Items([Blob(Zero(32)), Blob(Zero(4))])]), SourceOf(k)])
  }

  function RawTxOf(k: Keys): Val {
    Items([Blob(Zero(4)), Items([]), Items([]), Items([InputOf(k)]), Items([]), Items([])])
  }

  function Message(k: Keys): Val {
    Items([Items([]), Items([]), Blob([1, 0, 0, 0]), RawTxOf(k), Items([Blob([])])])
  }

  lemma {:induction false} GoodScript(k: Keys, t: Tag, hash: Tag, kind: Tag, args: Tag)
    ensures Good(Script(t, hash, kind, args), LockScriptOf(k), 124)
  {
    var s, v := Script(t, hash, kind, args), LockScriptOf(k);
    assert |DefaultLock()| == 32;
    forall i | 0 <= i < 3 ensures Good(s.fields[i], v.vals[i], 36) {
      GoodLeaf(s.fields[i], v.vals[i]);
      Wider(s.fields[i], v.vals[i], |v.vals[i].bytes| + 4, 36);
      hide Good;
    }
    hide Good, DefaultLock;
    GoodTable(s, v, 36);
  }

  lemma {:induction false} GoodCell(k: Keys, t: Tag, lock: Tag, args: Tag)
    ensures Good(CellOutput(t, lock, args), CellOf(k), 400)
  {
    var s, v := CellOutput(t, lock, args), CellOf(k);
    hide Good;
    GoodLeaf(s.fields[0], v.vals[0]);
    Wider(s.fields[0], v.vals[0], 12, 128);
    GoodScript(k, lock, LockHash, HashType, args);
    Wider(s.fields[1], v.vals[1], 124, 128);
    GoodNone(s.fields[2]);
    Wider(s.fields[2], v.vals[2], 0, 128);
    hide LockScriptOf, Script;
    GoodTable(s, v, 128);
  }

  lemma {:induction false} GoodSource(k: Keys)
    ensures Good(SourceTx(), SourceOf(k), 2500)
  {
    var s, v := SourceTx(), SourceOf(k);
    hide Good;
    SourceFields(k);
    GoodLeaf(s.fields[0], v.vals[0]);
    Wider(s.fields[0], v.vals[0], 8, 408);
    forall i | 1 <= i < 4 ensures Good(s.fields[i], v.vals[i], 408) {
      GoodEmpty(s.fields[i]);
      Wider(s.fields[i], v.vals[i], 4, 408);
    }
    GoodCell(k, Quiet, LockScript, LockArgs);
    GoodVec(s.fields[4], v.vals[4], 400);
    GoodLeaf(Bytes(InputDatum), Blob([]));
    GoodVec(s.fields[5], v.vals[5], 4);
    Wider(s.fields[5], v.vals[5], 12, 408);
    hide CellOf, SourceTx, SourceOf;
    GoodTable(s, v, 408);
    Wider(s, v, 28 + 6 * 408, 2500);
  }

  lemma {:induction false} SourceFields(k: Keys)
    ensures var s, v := SourceTx(), SourceOf(k);
            && s.Table? && |s.fields| == |v.vals| == 6 && s.fields[0] == Array(Quiet, 4) && v.vals[0] == Blob(Zero(4))
            && (forall i | 1 <= i < 4 :: s.fields[i].FixVec? && v.vals[i] == Items([]))
            && s.fields[4] == DynVec(SourceOutputs, CellOutput(Quiet, LockScript, LockArgs)) && v.vals[4] == Items([CellOf(k)])
            && s.fields[5] == BytesVec(SourceData, InputDatum) && v.vals[5] == Items([Blob([])])
  {
  }

  lemma {:induction false} GoodInput(k: Keys)
    ensures Good(AnnotatedInput(), InputOf(k), 5100)
  {
    var s, v := AnnotatedInput(), InputOf(k);
    var cell, point := CellInput(), CellInput().fields[1];
    hide Good;
    GoodLeaf(point.fields[0], Blob(Zero(32)));
    GoodLeaf(point.fields[1], Blob(Zero(4)));
    Wider(point.fields[1], Blob(Zero(4)), 8, 36);
    GoodPair(point, v.vals[0].vals[1], 36);
    GoodLeaf(cell.fields[0], v.vals[0].vals[0]);
    Wider(cell.fields[0], v.vals[0].vals[0], 12, 72);
    GoodPair(cell, v.vals[0], 72);
    Wider(cell, v.vals[0], 144, 2500);
    GoodSource(k);
    hide SourceOf, SourceTx, CellInput;
    GoodTable(s, v, 2500);
    Wider(s, v, 12 + 2 * 2500, 5100);
  }

  lemma {:induction false} GoodRaw(k: Keys)
    ensures Good(AnnotatedRaw(), RawTxOf(k), 31000)
  {
    var s, v := AnnotatedRaw(), RawTxOf(k);
    hide Good;
    RawFieldsOf(k);
    GoodLeaf(s.fields[0], v.vals[0]);
    Wider(s.fields[0], v.vals[0], 8, 5108);
    GoodInput(k);
    GoodVec(s.fields[3], v.vals[3], 5100);
    forall i | 1 <= i < 6 && i != 3 ensures Good(s.fields[i], v.vals[i], 5108) {
      GoodEmpty(s.fields[i]);
      Wider(s.fields[i], v.vals[i], 4, 5108);
    }
    hide AnnotatedRaw, RawTxOf, InputOf, AnnotatedInput;
    GoodTable(s, v, 5108);
    Wider(s, v, 28 + 6 * 5108, 31000);
  }

  lemma {:induction false} RawFieldsOf(k: Keys)
    ensures var s, v := AnnotatedRaw(), RawTxOf(k);
            && s.Table? && |s.fields| == |v.vals| == 6 && s.fields[0] == Array(Version, 4) && v.vals[0] == Blob(Zero(4))
            && (forall i | 1 <= i < 6 && i != 3 :: (s.fields[i].FixVec? || s.fields[i].DynVec?) && v.vals[i] == Items([]))
            && s.fields[3] == DynVec(Inputs, AnnotatedInput()) && v.vals[3] == Items([InputOf(k)])
  {
  }

  lemma {:induction false} GoodMessage(k: Keys)
    ensures Good(AnnotatedTx(), Message(k), 160000)
  {
    var s, v := AnnotatedTx(), Message(k);
    hide Good;
    S.TxFields();
    GoodEmpty(s.fields[0]);
    GoodEmpty(s.fields[1]);
    GoodLeaf(s.fields[2], v.vals[2]);
    GoodRaw(k);
    GoodLeaf(Bytes(Witness), Blob([]));
    GoodVec(s.fields[4], v.vals[4], 4);
    Wider(s.fields[0], v.vals[0], 4, 31000);
    Wider(s.fields[1], v.vals[1], 4, 31000);
    Wider(s.fields[2], v.vals[2], 8, 31000);
    Wider(s.fields[4], v.vals[4], 12, 31000);
    hide AnnotatedTx, AnnotatedRaw, RawTxOf;
    GoodTable(s, v, 31000);
    Wider(s, v, 24 + 5 * 31000, 160000);
  }

  /** There are messages that the theorems about digests and accounts are about, for any keys. */
  lemma {:induction false} SampleSignable(k: Keys)
    ensures S.Signable(Message(k), W.NoArgs()) && Countable(RawOf(Message(k)))
  {
    var v := Message(k);
    GoodMessage(k);
    assert Typed(AnnotatedTx(), v) && |Encode(AnnotatedTx(), v)| < U32_SIZE by { hide Typed, Encode; }
    SampleDigest(k);
    SampleAccounts(k);
  }

  lemma {:induction false} SampleDigest(k: Keys)
    requires Typed(AnnotatedTx(), Message(k)) && |Encode(AnnotatedTx(), Message(k))| < U32_SIZE
    ensures S.Signable(Message(k), W.NoArgs())
  {
    W.EmptyStands();
    S.TxShaped(Message(k));
    assert Unpack([1, 0, 0, 0]) == 1;
    hide Typed, Encode, AnnotatedTx, W.StandsFor, W.NoArgs, InputOf, S.TxShape, Unpack;
  }

  lemma {:induction false} SampleAccounts(k: Keys)
    requires Typed(AnnotatedTx(), Message(k)) && |Encode(AnnotatedTx(), Message(k))| < U32_SIZE
    ensures Countable(RawOf(Message(k)))
  {
    var raw := RawOf(Message(k));
    assert raw == RawTxOf(k) by { hide Typed, Encode, AnnotatedTx, RawTxOf; }
    assert InsOf(raw) == [InputOf(k)] && OutsOf(raw) == [] by { hide Typed, Encode, InputOf, InputShapes, CellShapes, Blobs, AnnotatedRaw; }
    hide RawOf, Typed, Encode, AnnotatedTx, AnnotatedRaw;
    InputInRange(k, raw);
  }

  lemma {:induction false} InputInRange(k: Keys, raw: Val)
    requires RawForm(raw) && InsOf(raw) == [InputOf(k)]
    ensures AllInRange(InsOf(raw))
  {
    assert InputShape(InputOf(k)) by { assert InsOf(raw)[0] == InputOf(k); }
    assert Unpack(Zero(4)) == 0;
    hide RawForm, Typed, Encode, InputShape, AnnotatedInput, DefaultLock, Unpack;
    assert InRange(InputOf(k));
  }

  lemma {:induction false} SampleInput(k: Keys, raw: Val)
    requires RawForm(raw) && InsOf(raw) == [InputOf(k)] && AllInRange(InsOf(raw))
    ensures SpentCell(InsOf(raw)[0]) == CellOf(k) && SpentDatum(InsOf(raw)[0]) == []
  {
    assert Unpack(Zero(4)) == 0;
    hide RawForm, Typed, Encode, InputShape, AnnotatedInput, DefaultLock, Unpack, Zero;
  }

  lemma {:induction false} SampleCell(k: Keys)
    ensures CellShape(CellOf(k)) && A.Known(k, CellOf(k), []) && !IsDao(CellOf(k)) && !IsMultisig(CellOf(k)) && |ArgsOf(CellOf(k))| <= ARG_MAX
  {
    LocksDiffer();
    assert |DefaultLock()| == 32;
    hide DefaultLock, MultisigLock, DaoType;
  }

  lemma {:induction false} SampleRaw(k: Keys)
    requires Typed(AnnotatedTx(), Message(k)) && |Encode(AnnotatedTx(), Message(k))| < U32_SIZE
    ensures var raw := RawOf(Message(k)); RawForm(raw) && InsOf(raw) == [InputOf(k)] && OutsOf(raw) == [] && DatasOf(raw) == []
  {
    var raw := RawOf(Message(k));
    assert raw == RawTxOf(k) by { hide Typed, Encode, AnnotatedTx, RawTxOf; }
    hide RawOf, Typed, Encode, AnnotatedTx, AnnotatedRaw, InputOf, InputShapes, CellShapes, Blobs;
  }

  lemma {:induction false} NoOutputs(k: Keys, outs: seq<Val>)
    requires outs == [] && AllPlain(outs)
    ensures Paid(k, outs, 0) == [] && D.Groups(k, outs) == 0
  {
    NoPayments(k, outs);
  }

  lemma {:induction false} OneSource(k: Keys, ins: seq<Val>)
    requires |ins| == 1 && AllInRange(ins)
    ensures A.Ours(k, ins, 0, Zero(20)) <= 1 && D.SourceCount(ins) <= 1
  {
    assert A.Ours(k, ins, 1, Key(SpentCell(ins[0]))) == 0;
    assert |KeysFrom(ins, 0)| == 1;
    hide InputShape, InRange, Key, Foreign, SpentCell;
  }

  /** That message is shown, whatever the keys and settings. */
  lemma {:induction false} SampleShown(k: Keys)
    ensures Typed(AnnotatedTx(), Message(k)) && |Encode(AnnotatedTx(), Message(k))| < U32_SIZE
    ensures var raw := RawOf(Message(k));
            Ordinary(raw) && RawForm(raw) && AllInRange(InsOf(raw)) && AllPlain(OutsOf(raw)) && D.Acceptable(k, raw, NOT_SET)
  {
    SampleSignable(k);
    assert Typed(AnnotatedTx(), Message(k)) && |Encode(AnnotatedTx(), Message(k))| < U32_SIZE by { hide Typed, Encode, AnnotatedTx; }
    hide Typed, Encode, AnnotatedTx, RawOf, Message, InputOf, CellOf, SpentCell, SpentDatum, A.Known, InputShape, InRange, CellShape, IsDao, IsMultisig;
    SampleRaw(k);
    SampleCell(k);
    var raw := RawOf(Message(k));
    assert AllInRange(InsOf(raw)) && AllPlain(OutsOf(raw));
    SampleInput(k, raw);
    NoOutputs(k, OutsOf(raw));
    OneSource(k, InsOf(raw));
    hide RawForm;
    SampleAccepted(k, raw);
  }

  lemma {:induction false} SampleAccepted(k: Keys, raw: Val)
    requires RawForm(raw) && AllInRange(InsOf(raw)) && AllPlain(OutsOf(raw)) && |InsOf(raw)| == 1 && OutsOf(raw) == [] && DatasOf(raw) == []
    requires A.Known(k, SpentCell(InsOf(raw)[0]), SpentDatum(InsOf(raw)[0])) && !IsDao(SpentCell(InsOf(raw)[0]))
    requires D.Groups(k, OutsOf(raw)) == 0 && A.Ours(k, InsOf(raw), 0, Zero(20)) <= 1 && D.SourceCount(InsOf(raw)) <= 1
    ensures Ordinary(raw) && D.Acceptable(k, raw, NOT_SET)
  {
    hide RawForm, SpentCell, SpentDatum, A.Known, InputShape, InRange, IsDao, A.Ours, D.SourceCount, D.Groups, InsOf, OutsOf, DatasOf, A.KnownOutput, D.AnyMultisig;
  }
}
