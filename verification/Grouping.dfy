/** Run-length compression of payments by destination. */
module Grouping {
  import opened Words
  import opened Ledger

  /** The device looks at the key hash and at whether the lock is multisig, not at the period. */
  predicate Alike(a: Entry, b: Entry) {
    a.destination[..20] == b.destination[..20] && a.isMultisig == b.isMultisig
  }

  /** How many payments at the front go to the same place. */
  function RunLength(xs: seq<Entry>): (n: nat)
    requires xs != []
    ensures 1 <= n <= |xs|
  {
    if |xs| > 1 && Alike(xs[0], xs[1]) then 1 + RunLength(xs[1..]) else 1
  }

  function TotalOf(xs: seq<Entry>): u64 {
    if xs == [] then 0 else Add64(xs[0].capacity, TotalOf(xs[1..]))
  }

  /** One entry per maximal run of payments to the same place, with their sum. */
  function Compress(xs: seq<Entry>): seq<Entry>
    decreases |xs|
  {
    if xs == [] then []
    else
      var n := RunLength(xs);
      [xs[0].(capacity := TotalOf(xs[..n]))] + Compress(xs[n..])
  }

  lemma {:induction false} TotalPlus(xs: seq<Entry>, ys: seq<Entry>)
    ensures TotalOf(xs + ys) == Add64(TotalOf(xs), TotalOf(ys))
    decreases |xs|
  {
    if xs == [] {
      assert xs + ys == ys;
    } else {
      assert (xs + ys)[1..] == xs[1..] + ys;
      TotalPlus(xs[1..], ys);
    }
  }

  /** All payments of a run are alike, and the next one is not. */
  lemma {:induction false} RunIs(xs: seq<Entry>)
    requires xs != []
    ensures forall i | 0 <= i < RunLength(xs) :: Alike(xs[0], xs[i])
    ensures RunLength(xs) < |xs| ==> !Alike(xs[0], xs[RunLength(xs)])
  {
    if |xs| > 1 && Alike(xs[0], xs[1]) {
      RunIs(xs[1..]);
      var n := RunLength(xs[1..]);
      forall i | 0 <= i < RunLength(xs) ensures Alike(xs[0], xs[i]) {
        if i > 0 { assert xs[1..][i - 1] == xs[i]; }
      }
      if n + 1 < |xs| { assert xs[1..][n] == xs[n + 1]; }
    }
  }

  lemma {:induction false} RunGrows(xs: seq<Entry>, x: Entry)
    requires xs != []
    ensures RunLength(xs + [x]) == if RunLength(xs) == |xs| && Alike(xs[0], x) then |xs| + 1 else RunLength(xs)
  {
    var ys := xs + [x];
    if |xs| == 1 {
      assert ys[1..] == [x];
    } else {
      assert ys[1..] == xs[1..] + [x];
      if Alike(xs[0], xs[1]) { RunGrows(xs[1..], x); }
    }
  }

  /** A payment joins the last entry or opens the next. */
  function Push(es: seq<Entry>, x: Entry): (r: seq<Entry>)
    ensures |es| <= |r| <= |es| + 1 && r != []
  {
    if es != [] && Alike(es[|es| - 1], x) then Credit(es, x.capacity) else es + [x]
  }

  lemma {:induction false} PushTail(e: Entry, es: seq<Entry>, x: Entry)
    requires es != []
    ensures Push([e] + es, x) == [e] + Push(es, x)
  {
    assert ([e] + es)[|es|] == es[|es| - 1];
  }

  lemma {:induction false} CompressOne(x: Entry)
    ensures Compress([x]) == [x]
  {
    assert TotalOf([x]) == Add64(x.capacity, 0);
    assert [x][..1] == [x] && [x][1..] == [];
    assert Compress([x]) == [x.(capacity := x.capacity)] + Compress([]);
  }

  lemma {:induction false} CompressSome(xs: seq<Entry>)
    requires xs != []
    ensures Compress(xs) != []
  {
  }

  /** Adding payments one at a time yields the compression of them all. */
  lemma {:induction false} PushCompress(xs: seq<Entry>, x: Entry)
    ensures Compress(xs + [x]) == Push(Compress(xs), x)
    decreases |xs|
  {
    var ys := xs + [x];
    if xs == [] {
      assert ys == [x];
      CompressOne(x);
    } else {
      var n := RunLength(xs);
      RunGrows(xs, x);
      if n < |xs| {
        assert ys[..n] == xs[..n] && ys[n..] == xs[n..] + [x];
        PushCompress(xs[n..], x);
        CompressSome(xs[n..]);
        PushTail(xs[0].(capacity := TotalOf(xs[..n])), Compress(xs[n..]), x);
      } else {
        LastRun(xs, x);
      }
    }
  }

  lemma {:induction false} LastRun(xs: seq<Entry>, x: Entry)
    requires xs != [] && RunLength(xs) == |xs|
    ensures Compress(xs + [x]) == Push(Compress(xs), x)
  {
    var ys, e := xs + [x], xs[0].(capacity := TotalOf(xs));
    RunGrows(xs, x);
    assert xs[..|xs|] == xs && xs[|xs|..] == [];
    assert Compress(xs) == [e] + Compress([]) == [e];
    if Alike(xs[0], x) {
      assert ys[..|ys|] == ys && ys[|ys|..] == [];
      TotalPlus(xs, [x]);
      assert TotalOf([x]) == Add64(x.capacity, 0);
      assert Compress(ys) == [ys[0].(capacity := TotalOf(ys))] + Compress([]);
    } else {
      assert ys[..|xs|] == xs && ys[|xs|..] == [x];
      CompressOne(x);
      assert Compress(ys) == [ys[0].(capacity := TotalOf(xs))] + Compress([x]);
    }
  }

  /** Compression keeps the total. */
  lemma {:induction false} CompressTotal(xs: seq<Entry>)
    ensures TotalOf(Compress(xs)) == TotalOf(xs)
    decreases |xs|
  {
    if xs != [] {
      var n := RunLength(xs);
      var e := xs[0].(capacity := TotalOf(xs[..n]));
      CompressTotal(xs[n..]);
      TotalPlus(xs[..n], xs[n..]);
      assert xs[..n] + xs[n..] == xs;
      assert ([e] + Compress(xs[n..]))[1..] == Compress(xs[n..]);
    }
  }

  /** No two neighbouring entries go to the same place. */
  lemma {:induction false} CompressTight(xs: seq<Entry>, i: nat)
    requires i + 1 < |Compress(xs)|
    ensures !Alike(Compress(xs)[i], Compress(xs)[i + 1])
    decreases |xs|
  {
    var n := RunLength(xs);
    RunIs(xs);
    if i > 0 {
      CompressTight(xs[n..], i - 1);
    } else {
      assert xs[n..] != [];
      assert Compress(xs)[1] == Compress(xs[n..])[0];
    }
  }
}
