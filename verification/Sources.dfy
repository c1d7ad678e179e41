/** How many sources the inputs come from, and which of them we sign. */
module Sources {
  import opened Words
  import opened Schema
  import opened Automaton
  import opened Encoding
  import opened Transaction
  import opened Ledger
  import opened LedgerCells
  import opened LedgerRuns
  import opened LedgerTotal
  import opened Spending
  import opened Inputs
  import opened Conservation

  // ---------- Pieces of a lock argument ----------

  /** A 20-byte lock argument is found unequal exactly if it differs from the expected one, however
      it is cut. */
  lemma {:induction false} LockMatches(k: Keys, b: Book, pieces: seq<seq<u8>>)
    requires b.cell.active && b.cell.argIndex == 0 && !b.cell.nonequal && b.arg == Zero(ARG_MAX) && b.cmp != Nobody && |Join(pieces)| == 20
    ensures var r := ArgCut(k, b, pieces);
            && r.arg == Padded(Join(pieces)) && r.long == b.long
            && (r.cell.nonequal <==> Join(pieces) != if b.cmp == Current then k.current else k.change)
  {
    var args: Hash20 := Join(pieces);
    ArgCutFits(k, b, pieces);
    ArgIs(k, b, args);
    if b.cmp == Current { DiffersIs(args, k.current, k.change); } else { DiffersIs(args, k.change, b.owner); }
  }

  // ---------- Sources ----------

  /** What an input is identified by. */
  function Key(c: Val): Hash20
    requires CellShape(c) && |ArgsOf(c)| <= ARG_MAX
  {
    Padded(ArgsOf(c))[..20]
  }

  ghost predicate AllStandard(vals: seq<Val>) {
    AllInRange(vals) && forall i | 0 <= i < |vals| :: |ArgsOf(SpentCell(vals[i]))| == 20
  }

  ghost function KeysFrom(vals: seq<Val>, j: nat): (keys: seq<Hash20>)
    requires AllInRange(vals) && j <= |vals|
    ensures |keys| == |vals| - j
    decreases |vals| - j
  {
    if j == |vals| then [] else [Key(SpentCell(vals[j]))] + KeysFrom(vals, j + 1)
  }

  /** The sources: the locks of the inputs in order, neighbours with the same lock counted once. */
  function Changes(keys: seq<Hash20>, last: Hash20): (r: seq<Hash20>)
    ensures |r| <= |keys|
    decreases |keys|
  {
    if keys == [] then []
    else if keys[0] == last then Changes(keys[1..], last)
    else [keys[0]] + Changes(keys[1..], keys[0])
  }

  /** `at` is the number of the only source with the lock `who`, counting on from `base`, or 0 if there
      is none. */
  predicate Numbered(sources: seq<Hash20>, who: Hash20, base: nat, at: nat) {
    if at == 0 then who !in sources
    else
      && base < at <= base + |sources| && sources[at - base - 1] == who
      && forall i | 0 <= i < |sources| && i != at - base - 1 :: sources[i] != who
  }

  lemma {:induction false} NumberedNext(first: Hash20, rest: seq<Hash20>, who: Hash20, base: nat, at: nat)
    requires first != who && Numbered(rest, who, base + 1, at)
    ensures Numbered([first] + rest, who, base, at)
  {
    var s := [first] + rest;
    forall i | 0 <= i < |s| ensures s[i] == (if i == 0 then first else rest[i - 1]) {}
    if at != 0 {
      assert s[at - base - 1] == rest[at - base - 2];
    }
  }

  lemma {:induction false} NumberedFirst(who: Hash20, rest: seq<Hash20>, base: nat)
    requires who !in rest
    ensures Numbered([who] + rest, who, base, base + 1)
  {
    var s := [who] + rest;
    forall i | 0 < i < |s| ensures s[i] != who { assert s[i] == rest[i - 1]; }
  }

  /** What the end of an input's lock does to the count of sources. */
  lemma {:induction false} LockedSources(k: Keys, b: Book, c: Val)
    requires CellShape(c) && |ArgsOf(c)| <= ARG_MAX
    ensures var r := Locked(k, b, c);
            if Key(c) == b.src.last then
              r.src.last == b.src.last && r.spent.distinct == b.spent.distinct && r.shown.signedAt == b.shown.signedAt
            else
              && r.spent.distinct == Add32(b.spent.distinct, 1)
              && (!r.shown.unsafe ==>
                   && r.src.last == Key(c) && (!Foreign(k, c) ==> b.shown.signedAt == 0)
                   && r.shown.signedAt == if Foreign(k, c) then b.shown.signedAt else r.spent.distinct)
  {
    hide OddLock, Amount, IsDao, IsMultisig, Padded, Foreign, CellShape, ArgsOf;
  }

  /** For a 20-byte lock argument, the key is the argument, and it is ours exactly if it equals the
      one we sign for. */
  lemma {:induction false} StandardKey(k: Keys, c: Val)
    requires CellShape(c) && |ArgsOf(c)| == 20
    ensures Key(c) == ArgsOf(c) && (Foreign(k, c) <==> Key(c) != k.current)
  {
    DiffersIs(ArgsOf(c), k.current, k.change);
    assert Padded(ArgsOf(c))[..20] == ArgsOf(c);
  }

  /** The count and the number of our source, if the inputs from `j` on flag nothing. */
  ghost predicate Located(k: Keys, b: Book, r: Book, sources: seq<Hash20>) {
    && r.spent.distinct == b.spent.distinct + |sources|
    && if b.shown.signedAt == 0 then Numbered(sources, k.current, b.spent.distinct, r.shown.signedAt)
       else k.current !in sources && r.shown.signedAt == b.shown.signedAt
  }

  lemma {:induction false} LocatedNext(k: Keys, b: Book, b1: Book, r: Book, first: Hash20, rest: seq<Hash20>)
    requires b1.spent.distinct == b.spent.distinct + 1 && Located(k, b1, r, rest)
    requires if first == k.current then b.shown.signedAt == 0 && b1.shown.signedAt == b1.spent.distinct
             else b1.shown.signedAt == b.shown.signedAt
    ensures Located(k, b, r, [first] + rest)
  {
    if first == k.current {
      NumberedFirst(first, rest, b.spent.distinct);
    } else if b.shown.signedAt == 0 {
      NumberedNext(first, rest, k.current, b.spent.distinct, r.shown.signedAt);
    }
  }

  /** One input's contribution to the count. */
  lemma {:induction false} SourceStep(k: Keys, b: Book, v: Val)
    requires InputShape(v) && InRange(v) && b == InputStart(b) && |ArgsOf(SpentCell(v))| == 20 && b.spent.distinct + 1 < U32_SIZE
    ensures var r, key := NextInput(k, b, v), Key(SpentCell(v));
            !r.shown.unsafe ==>
              if key == b.src.last then
                r.src.last == b.src.last && r.spent.distinct == b.spent.distinct && r.shown.signedAt == b.shown.signedAt
              else
                && r.src.last == key && r.spent.distinct == b.spent.distinct + 1
                && if key == k.current then b.shown.signedAt == 0 && r.shown.signedAt == r.spent.distinct
                   else r.shown.signedAt == b.shown.signedAt
  {
    hide *;
    InputEffect(k, b, v);
    SeekKeeps(b, v);
    LockedSources(k, Seeking(b, v), SpentCell(v));
    StandardKey(k, SpentCell(v));
    AddOne(b.spent.distinct);
  }

  lemma {:induction false} SeekKeeps(b: Book, v: Val)
    requires InputShape(v)
    ensures Seeking(b, v).src.last == b.src.last && Seeking(b, v).spent == b.spent && Seeking(b, v).shown == b.shown
  {
    hide InputShape, IndexOf;
  }

  lemma {:induction false} AddOne(n: u32)
    requires n + 1 < U32_SIZE
    ensures Add32(n, 1) == n + 1
  {
  }

  lemma {:induction false} StandardAt(vals: seq<Val>, j: nat)
    requires AllStandard(vals) && j < |vals|
    ensures AllInRange(vals) && InputShape(vals[j]) && InRange(vals[j]) && |ArgsOf(SpentCell(vals[j]))| == 20
    ensures KeysFrom(vals, j) == [Key(SpentCell(vals[j]))] + KeysFrom(vals, j + 1)
  {
    hide InputShape, InRange, Key;
  }

  lemma {:induction false} ChangesStep(key: Hash20, rest: seq<Hash20>, last: Hash20)
    ensures Changes([key] + rest, last) == if key == last then Changes(rest, last) else [key] + Changes(rest, key)
  {
    assert ([key] + rest)[1..] == rest;
  }

  lemma {:induction false} NoSources(k: Keys, b: Book, vals: seq<Val>)
    requires AllInRange(vals)
    ensures KeysFrom(vals, |vals|) == [] && Changes([], b.src.last) == [] && Located(k, b, b, [])
  {
  }

  /** If no input flags the transaction, the device has counted the sources, and knows the number of
      ours, of which there is at most one. */
  lemma {:induction false} InputsLocated(k: Keys, b: Book, vals: seq<Val>, j: nat)
    requires AllStandard(vals) && AllInRange(vals) && InputShapes(vals) && j <= |vals| && b == InputStart(b)
    requires b.spent.distinct + (|vals| - j) < U32_SIZE
    ensures var r := AllInputs(k, b, vals, j); !r.shown.unsafe ==> Located(k, b, r, Changes(KeysFrom(vals, j), b.src.last))
    decreases |vals| - j
  {
    hide *;
    if j == |vals| {
      InputsDone(k, b, vals);
      NoSources(k, b, vals);
    } else {
      StandardAt(vals, j);
      var b1, key := NextInput(k, b, vals[j]), Key(SpentCell(vals[j]));
      InputEffect(k, b, vals[j]);
      InputsStep(k, b, vals, j);
      InputsHeld(k, b1, vals, j + 1);
      if !AllInputs(k, b, vals, j).shown.unsafe {
        SourceStep(k, b, vals[j]);
        ChangesStep(key, KeysFrom(vals, j + 1), b.src.last);
        InputsLocated(k, b1, vals, j + 1);
        var r := AllInputs(k, b, vals, j);
        if key == b.src.last {
          LocatedSame(k, b, b1, r, Changes(KeysFrom(vals, j + 1), b1.src.last));
        } else {
          LocatedNext(k, b, b1, r, key, Changes(KeysFrom(vals, j + 1), key));
        }
      }
    }
  }

  lemma {:induction false} LocatedSame(k: Keys, b: Book, b1: Book, r: Book, sources: seq<Hash20>)
    requires Located(k, b1, r, sources) && b1.spent.distinct == b.spent.distinct && b1.shown.signedAt == b.shown.signedAt
    ensures Located(k, b, r, sources)
  {
  }
}
