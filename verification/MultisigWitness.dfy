/** What is hashed of the first witness when a multisig input is signed: its arguments, with the
    signatures behind the script in the lock zeroed, as far as the device's pieces allow. */
module MultisigWitness {
  import opened Words
  import opened Schema
  import opened Automaton
  import opened Views
  import opened Lifting
  import opened Encoding
  import opened RoundTrip
  import opened Transaction
  import opened Shapes
  import opened Hashing
  import opened Rewrite
  import opened RawDigest
  import opened WitnessDigest

  // ---------- What the callbacks contribute ----------

  lemma {:induction false} MultisigAnti()
    ensures Anti(MULTISIG, WitnessArgs())
  {
  }

  lemma {:induction false} CollectPlus(p: Part, a: seq<Event>, b: seq<Event>)
    ensures Collect(p, a + b) == Collect(p, a) + Collect(p, b)
  {
    if a == [] {
      assert a + b == b;
    } else {
      assert (a + b)[1..] == a[1..] + b;
      CollectPlus(p, a[1..], b);
    }
  }

  lemma {:induction false} CollectOne(p: Part, e: Event)
    ensures Collect(p, [e]) == Given(p, e)
  {
    assert [e][1..] == [] && Given(p, e) + [] == Given(p, e);
  }

  lemma {:induction false} CollectBody(p: Part, t: Tag, bs: seq<u8>)
    ensures Collect(p, BodyBytes(t, bs)) == Given(p, Body(t, bs))
    decreases |bs|
  {
    if bs != [] {
      var ev := BodyBytes(t, bs);
      assert ev[0] == Body(t, [bs[0]]) && ev[1..] == BodyBytes(t, bs[1..]) && [bs[0]] + bs[1..] == bs;
      CollectBody(p, t, bs[1..]);
    }
  }

  lemma {:induction false} CollectChunk(p: Part, t: Tag, bs: seq<u8>)
    ensures Collect(p, ChunkBytes(t, bs)) == Given(p, Chunk(t, bs))
    decreases |bs|
  {
    if bs != [] {
      var ev := ChunkBytes(t, bs);
      assert ev[0] == Chunk(t, [bs[0]]) && ev[1..] == ChunkBytes(t, bs[1..]) && [bs[0]] + bs[1..] == bs;
      CollectChunk(p, t, bs[1..]);
    }
  }

  lemma {:induction false} CollectView1(p: Part, e: Event)
    ensures Collect(p, View1(MULTISIG, e)) == Given(p, e)
  {
    CollectOne(p, e);
    match e {
      case Chunk(t, bs) => CollectChunk(p, t, bs);
      case Body(t, bs) => CollectBody(p, t, bs);
      case _ =>
    }
  }

  /** The view keeps all that reaches the hash. */
  lemma {:induction false} CollectView(p: Part, ev: seq<Event>)
    ensures Collect(p, View(MULTISIG, ev)) == Collect(p, ev)
    decreases |ev|
  {
    if ev != [] {
      CollectView1(p, ev[0]);
      CollectView(p, ev[1..]);
      CollectPlus(p, View1(MULTISIG, ev[0]), View(MULTISIG, ev[1..]));
    }
  }

  lemma {:induction false} MultisigView(ev: seq<Event>)
    ensures Collect(HeadPart, View(MULTISIG, ev)) == Collect(HeadPart, ev) && Collect(LockPart, View(MULTISIG, ev)) == Collect(LockPart, ev)
    ensures Collect(TypePart, View(MULTISIG, ev)) == Collect(TypePart, ev)
  {
    CollectView(HeadPart, ev);
    CollectView(LockPart, ev);
    CollectView(TypePart, ev);
  }

  // ---------- The pieces of the lock ----------

  /** A lock that starts with a multisig script. */
  predicate Multisig(lock: seq<u8>) {
    |lock| >= 4 && lock[0] == 0 && lock[3] > 0
  }

  function ScriptOf(lock: seq<u8>): nat
    requires Multisig(lock)
  {
    ScriptLength(lock[3])
  }

  /** What the pieces of a lock pass to the hash. */
  function KeptAll(s: Scan, pieces: seq<seq<u8>>): seq<u8>
    decreases |pieces|
  {
    if pieces == [] then [] else LockKept(s, pieces[0]) + KeptAll(Scanned(s, pieces[0]), pieces[1..])
  }

  /** The end of the piece that the script, `n` bytes long, ends strictly inside of, or of the script. */
  function SweptTo(pieces: seq<seq<u8>>, at: nat, n: nat): nat {
    if pieces == [] then n
    else if at < n < at + |pieces[0]| then at + |pieces[0]|
    else SweptTo(pieces[1..], at + |pieces[0]|, n)
  }

  /** The lock with its bytes from `n` up to `e` zeroed. */
  function Swept(lock: seq<u8>, n: nat, e: nat): (r: seq<u8>)
    ensures |r| == |lock|
  {
    if n <= e <= |lock| then lock[..n] + Zeros(e - n) + lock[e..] else lock
  }

  /** The lock with all its signatures zeroed. */
  function Unsign(lock: seq<u8>): (r: seq<u8>)
    requires Multisig(lock)
  {
    Swept(lock, ScriptOf(lock), |lock|)
  }

  lemma {:induction false} PastScript(pieces: seq<seq<u8>>, at: nat, n: nat)
    requires at >= n
    ensures SweptTo(pieces, at, n) == n
  {
    if pieces != [] { PastScript(pieces[1..], at + |pieces[0]|, n); }
  }

  lemma {:induction false} SweptInside(pieces: seq<seq<u8>>, at: nat, n: nat)
    ensures n <= SweptTo(pieces, at, n) && (SweptTo(pieces, at, n) > n ==> SweptTo(pieces, at, n) <= at + |Join(pieces)|)
  {
    if pieces != [] { SweptInside(pieces[1..], at + |pieces[0]|, n); }
  }

  /** One piece, which is the bytes of the lock from `at` on. */
  lemma {:induction false} OnePiece(s: Scan, lock: seq<u8>, at: nat, p: seq<u8>)
    requires Multisig(lock) && p != [] && at + |p| <= |lock| && p == lock[at..at + |p|]
    requires s.used == at && (at >= 4 ==> s.keys == lock[3])
    ensures var n, to := ScriptOf(lock), at + |p|;
            && !Reserved(s, p) && Scanned(s, p).used == to && (to >= 4 ==> Scanned(s, p).keys == lock[3])
            && LockKept(s, p) == Swept(lock, n, if at < n < to then to else n)[at..to]
  {
    var n, to := ScriptOf(lock), at + |p|;
    assert p[0] == lock[at];
    if at < 4 <= to { assert p[3 - at] == lock[3]; }
    if at < n < to {
      assert Swept(lock, n, to)[at..to] == lock[at..n] + Zeros(to - n);
      assert p[..n - at] == lock[at..n];
    } else {
      assert n <= |lock| ==> Swept(lock, n, n) == lock;
    }
  }

  /** What the pieces of a multisig lock, from `at` on, pass to the hash. */
  lemma {:induction false} KeptFrom(s: Scan, lock: seq<u8>, at: nat, pieces: seq<seq<u8>>)
    requires Multisig(lock) && at <= |lock| && Join(pieces) == lock[at..]
    requires s.used == at && (at >= 4 ==> s.keys == lock[3])
    ensures KeptAll(s, pieces) == Swept(lock, ScriptOf(lock), SweptTo(pieces, at, ScriptOf(lock)))[at..]
    decreases |pieces|
  {
    hide *;
    if pieces == [] {
      KeptEnd(s, lock, at);
    } else {
      KeptStep(s, pieces);
      var p, rest := pieces[0], pieces[1..];
      if p == [] {
        EmptyPiece(s, at, pieces, ScriptOf(lock));
        KeptFrom(s, lock, at, rest);
      } else {
        NextPiece(lock, at, pieces);
        OnePiece(s, lock, at, p);
        KeptFrom(Scanned(s, p), lock, at + |p|, rest);
        PieceSwept(lock, ScriptOf(lock), at, p, pieces);
      }
    }
  }

  lemma {:induction false} KeptEnd(s: Scan, lock: seq<u8>, at: nat)
    requires Multisig(lock) && at <= |lock| && Join([]) == lock[at..]
    ensures KeptAll(s, []) == Swept(lock, ScriptOf(lock), SweptTo([], at, ScriptOf(lock)))[at..]
  {
    assert |lock[at..]| == 0;
  }

  lemma {:induction false} KeptStep(s: Scan, pieces: seq<seq<u8>>)
    requires pieces != []
    ensures KeptAll(s, pieces) == LockKept(s, pieces[0]) + KeptAll(Scanned(s, pieces[0]), pieces[1..])
  {
  }

  lemma {:induction false} EmptyPiece(s: Scan, at: nat, pieces: seq<seq<u8>>, n: nat)
    requires pieces != [] && pieces[0] == []
    ensures LockKept(s, []) == [] && Scanned(s, []) == s && Join(pieces[1..]) == Join(pieces)
    ensures SweptTo(pieces, at, n) == SweptTo(pieces[1..], at, n)
    ensures forall x: seq<u8> :: [] + x == x
  {
  }

  lemma {:induction false} NextPiece(lock: seq<u8>, at: nat, pieces: seq<seq<u8>>)
    requires at <= |lock| && pieces != [] && Join(pieces) == lock[at..]
    ensures var to := at + |pieces[0]|; to <= |lock| && pieces[0] == lock[at..to] && Join(pieces[1..]) == lock[to..]
  {
    var p, to := pieces[0], at + |pieces[0]|;
    assert p == lock[at..][..|p|] == lock[at..to] && Join(pieces[1..]) == lock[at..][|p|..] == lock[to..];
  }

  lemma {:induction false} PieceSwept(lock: seq<u8>, n: nat, at: nat, p: seq<u8>, pieces: seq<seq<u8>>)
    requires pieces != [] && p == pieces[0] && at + |p| <= |lock|
    ensures var to, e := at + |p|, SweptTo(pieces, at, n);
            Swept(lock, n, if at < n < to then to else n)[at..to] + Swept(lock, n, SweptTo(pieces[1..], to, n))[to..] == Swept(lock, n, e)[at..]
  {
    var to := at + |p|;
    var e, f := SweptTo(pieces, at, n), SweptTo(pieces[1..], to, n);
    SweptInside(pieces[1..], to, n);
    if to > n { PastScript(pieces[1..], to, n); }
    assert e == if at < n < to then to else f;
    assert to > n ==> f == n;
    hide *;
    if at < n < to {
      SweptRest(lock, n, to);
    } else if to <= n {
      SweptScript(lock, n, f, at, to);
    }
    CutAt(Swept(lock, n, e), at, to);
  }

  lemma {:induction false} CutAt(s: seq<u8>, at: nat, to: nat)
    requires at <= to <= |s|
    ensures s[at..to] + s[to..] == s[at..]
  {
  }

  /** What lies behind the swept bytes is left alone. */
  lemma {:induction false} SweptRest(lock: seq<u8>, n: nat, to: nat)
    requires n <= to <= |lock|
    ensures Swept(lock, n, to)[to..] == lock[to..] == Swept(lock, n, n)[to..]
  {
    assert Swept(lock, n, n) == lock;
  }

  /** So is the script. */
  lemma {:induction false} SweptScript(lock: seq<u8>, n: nat, e: nat, at: nat, to: nat)
    requires at <= to <= n && to <= |lock|
    ensures Swept(lock, n, e)[at..to] == lock[at..to] == Swept(lock, n, n)[at..to]
  {
  }

  /** However the lock is cut, what is hashed of it is the lock with all its signatures zeroed exactly if
      all bytes behind the piece that the script ends inside of are zero already. */
  lemma {:induction false} SignaturesZeroed(lock: seq<u8>, pieces: seq<seq<u8>>)
    requires Multisig(lock) && Join(pieces) == lock
    ensures KeptAll(NO_SCAN, pieces) == Unsign(lock)
       <==> forall i | SweptTo(pieces, 0, ScriptOf(lock)) <= i < |lock| :: lock[i] == 0
  {
    var n := ScriptOf(lock);
    var e := SweptTo(pieces, 0, n);
    KeptFrom(NO_SCAN, lock, 0, pieces);
    SweptInside(pieces, 0, n);
    assert Swept(lock, n, e)[0..] == Swept(lock, n, e);
    SweptSame(lock, n, e);
  }

  lemma {:induction false} SweptSame(lock: seq<u8>, n: nat, e: nat)
    requires n <= e && (e > n ==> e <= |lock|)
    ensures Swept(lock, n, e) == Swept(lock, n, |lock|) <==> forall i | e <= i < |lock| :: lock[i] == 0
  {
    var a, b := Swept(lock, n, e), Swept(lock, n, |lock|);
    if e <= |lock| {
      forall i | e <= i < |lock| ensures a[i] == lock[i] && b[i] == 0 {}
      forall i | 0 <= i < e ensures a[i] == b[i] {}
      if forall i | e <= i < |lock| :: lock[i] == 0 { assert a == b; }
      if a == b { forall i | e <= i < |lock| ensures lock[i] == 0 { assert a[i] == b[i]; } }
    }
  }

  /** If the whole lock is one piece, its signatures are zeroed. */
  lemma {:induction false} OnePieceZeroed(lock: seq<u8>)
    requires Multisig(lock)
    ensures KeptAll(NO_SCAN, [lock]) == Unsign(lock)
  {
    assert Join([lock][1..]) == [] && lock + [] == lock;
    SignaturesZeroed(lock, [lock]);
  }

  /** Key hashes of 20 bytes, one after the other. */
  function KeyHashes(hashes: seq<seq<u8>>): seq<u8>
    requires forall i | 0 <= i < |hashes| :: |hashes[i]| == 20
    ensures |KeyHashes(hashes)| == 20 * |hashes|
  {
    if hashes == [] then [] else hashes[0] + KeyHashes(hashes[1..])
  }

  /** A lock of the source's format, a reserved zero, two thresholds, the number of keys, their hashes and
      then signatures, is hashed with zeros for the signatures if it arrives in one piece. */
  lemma {:induction false} ScriptKept(first: u8, threshold: u8, hashes: seq<seq<u8>>, signatures: seq<u8>)
    requires 0 < |hashes| < 0x100 && forall i | 0 <= i < |hashes| :: |hashes[i]| == 20
    ensures var script := [0, first, threshold, |hashes|] + KeyHashes(hashes);
            KeptAll(NO_SCAN, [script + signatures]) == script + Zeros(|signatures|)
  {
    var script := [0, first, threshold, |hashes|] + KeyHashes(hashes);
    var lock := script + signatures;
    assert lock[0] == 0 && lock[3] == |hashes|;
    assert ScriptOf(lock) == |script|;
    OnePieceZeroed(lock);
    assert lock[..|script|] == script && lock[|lock|..] == [];
    assert Unsign(lock) == script + Zeros(|signatures|) + [];
  }

  /** A cut right behind the script leaves every signature in the hash. */
  lemma {:induction false} CutBehindScript(lock: seq<u8>)
    requires Multisig(lock) && ScriptOf(lock) <= |lock|
    ensures var n := ScriptOf(lock); KeptAll(NO_SCAN, [lock[..n], lock[n..]]) == lock
  {
    var n := ScriptOf(lock);
    var pieces, last := [lock[..n], lock[n..]], [lock[n..]];
    assert pieces[1..] == last && |last[1..]| == 0;
    assert Join(last) == lock[n..] + Join(last[1..]) && Join(last[1..]) == [];
    assert Join(pieces) == lock[..n] + lock[n..] == lock;
    KeptFrom(NO_SCAN, lock, 0, pieces);
    PastScript(last, n, n);
    assert SweptTo(pieces, 0, n) == n && Swept(lock, n, n) == lock;
  }

  // ---------- The order of the parts ----------

  /** Which part a callback contributes to; 3 stands for none. */
  function Stage(e: Event): nat {
    if Given(HeadPart, e) != [] then 0 else if Given(LockPart, e) != [] then 1 else if Given(TypePart, e) != [] then 2 else 3
  }

  /** The contributions are to parts from `s` to `t`, in order. */
  predicate InOrder(ev: seq<Event>, s: nat, t: nat)
    decreases |ev|
  {
    s <= t && (ev == [] || if Stage(ev[0]) == 3 then InOrder(ev[1..], s, t) else s <= Stage(ev[0]) <= t && InOrder(ev[1..], Stage(ev[0]), t))
  }

  lemma {:induction false} OrderWider(ev: seq<Event>, s: nat, t: nat, s': nat, t': nat)
    requires InOrder(ev, s, t) && s' <= s && t <= t'
    ensures InOrder(ev, s', t')
    decreases |ev|
  {
    hide Stage;
    if ev != [] {
      if Stage(ev[0]) == 3 {
        OrderWider(ev[1..], s, t, s', t');
      } else {
        OrderWider(ev[1..], Stage(ev[0]), t, Stage(ev[0]), t');
      }
    }
  }

  lemma {:induction false} OrderPlus(a: seq<Event>, b: seq<Event>, s: nat, m: nat, t: nat)
    requires InOrder(a, s, m) && InOrder(b, m, t)
    ensures InOrder(a + b, s, t)
    decreases |a|
  {
    hide Stage;
    if a == [] {
      assert a + b == b;
      OrderWider(b, m, t, s, t);
    } else {
      assert (a + b)[1..] == a[1..] + b && (a + b)[0] == a[0];
      OrderPlus(a[1..], b, if Stage(a[0]) == 3 then s else Stage(a[0]), m, t);
    }
  }

  /** Nothing is contributed to earlier parts. */
  lemma {:induction false} NoEarlier(ev: seq<Event>, s: nat, t: nat)
    requires InOrder(ev, s, t)
    ensures s >= 1 ==> Collect(HeadPart, ev) == []
    ensures s >= 2 ==> Collect(LockPart, ev) == []
    decreases |ev|
  {
    if ev != [] {
      NoEarlier(ev[1..], if Stage(ev[0]) == 3 then s else Stage(ev[0]), t);
      hide HeadGiven;
    }
  }

  lemma {:induction false} OrderSplit(a: seq<Event>, b: seq<Event>, s: nat, t: nat)
    requires InOrder(a + b, s, t)
    ensures InOrder(b, s, t)
    ensures Collect(TypePart, a) != [] ==> Collect(HeadPart, b) == [] && Collect(LockPart, b) == []
    ensures Collect(LockPart, a) != [] ==> Collect(HeadPart, b) == []
    decreases |a|
  {
    if a == [] {
      assert a + b == b;
    } else {
      var s1 := if Stage(a[0]) == 3 then s else Stage(a[0]);
      assert (a + b)[1..] == a[1..] + b && (a + b)[0] == a[0];
      assert s <= s1 && InOrder(a[1..] + b, s1, t);
      CollectStep(a);
      hide *;
      OrderSplit(a[1..], b, s1, t);
      OrderWider(b, s1, t, s, t);
      NoEarlier(b, s1, t);
    }
  }

  lemma {:induction false} CollectStep(ev: seq<Event>)
    requires ev != []
    ensures Collect(TypePart, ev) != [] ==> Stage(ev[0]) == 2 || Collect(TypePart, ev[1..]) != []
    ensures Collect(LockPart, ev) != [] ==> Stage(ev[0]) == 1 || Collect(LockPart, ev[1..]) != []
  {
    hide Pack, Pack64;
  }

  // ---------- Reading the first witness in pieces ----------

  function ReadPieces(d: Digest, ps: seq<seq<u8>>): Digest
    decreases |ps|
  {
    if ps == [] then d else ReadPieces(ReadFirst(d, ps[0]), ps[1..])
  }

  /** The pieces of the lock that the pieces of the witness contain. */
  function LockCuts(st: St, ps: seq<seq<u8>>): seq<seq<u8>>
    decreases |ps|
  {
    if ps == [] then []
    else
      var r := Go(WitnessArgs(), NUM_MAX, st, ps[0]);
      [Collect(LockPart, View(MULTISIG, r.ev))] + if r.rv == INCOMPLETE then LockCuts(r.st, ps[1..]) else []
  }

  /** A run in pieces of this reader, from a state at rest to the end. */
  ghost predicate Reads(st: St, ps: seq<seq<u8>>, w: seq<Event>) {
    && ps != [] && (forall i | 0 <= i < |ps| :: ps[i] != []) && Still(WitnessArgs(), NUM_MAX, st)
    && var r := Go(WitnessArgs(), NUM_MAX, st, Join(ps));
       r.rv == COMPLETE && r.used == |Join(ps)| && View(MULTISIG, r.ev) == w
  }

  /** The first piece, and the others. */
  lemma {:induction false} ReadsFirst(st: St, ps: seq<seq<u8>>, w: seq<Event>)
    requires Reads(st, ps, w)
    ensures var r := Go(WitnessArgs(), NUM_MAX, st, ps[0]);
            if |ps| == 1 then r.rv == COMPLETE && w == View(MULTISIG, r.ev)
            else r.rv == INCOMPLETE && exists w2 :: Reads(r.st, ps[1..], w2) && w == View(MULTISIG, r.ev) + w2
  {
    var a, b := ps[0], Join(ps[1..]);
    var r, all := Go(WitnessArgs(), NUM_MAX, st, a), Go(WitnessArgs(), NUM_MAX, st, a + b);
    StillShaped(WitnessArgs(), NUM_MAX, st);
    GoSplit(WitnessArgs(), NUM_MAX, st, a, b);
    MultisigAnti();
    if |ps| == 1 {
      assert ps[1..] == [] && a + b == a;
    } else {
      assert ps[1..][0] == ps[1] != [];
      assert |b| > 0;
      GoStill(WitnessArgs(), NUM_MAX, st, a);
      var r2 := Go(WitnessArgs(), NUM_MAX, r.st, b);
      ViewPlus(MULTISIG, r.ev, r2.ev);
      hide View, WitnessArgs, Go, Still, Anti;
      assert Reads(r.st, ps[1..], View(MULTISIG, r2.ev));
    }
  }

  lemma {:induction false} PassParts(d: Digest, ev: seq<Event>)
    requires d.multisig
    ensures var w := View(MULTISIG, ev);
            var r, lock := Pass(d, ev), Collect(LockPart, w);
            && r.main == d.main + Collect(HeadPart, w) + LockKept(d.scan, lock) + Collect(TypePart, w)
            && r == d.(main := r.main, scan := Scanned(d.scan, lock), refused := d.refused || Reserved(d.scan, lock))
  {
    hide View, Collect, LockKept, Scanned, Reserved;
  }

  /** Contributions in order can be taken together. */
  lemma {:induction false} TakenTogether(m: seq<u8>, h: seq<u8>, k: seq<u8>, t: seq<u8>, h2: seq<u8>, k2: seq<u8>, t2: seq<u8>)
    requires t != [] ==> h2 == [] && k2 == []
    requires k != [] ==> h2 == []
    ensures m + h + k + t + h2 + k2 + t2 == m + (h + h2) + (k + k2) + (t + t2)
  {
    if t != [] {
      assert k + k2 == k && h + h2 == h;
    } else if k != [] {
      assert h + h2 == h;
    }
  }

  lemma {:induction false} KeptNothing(s: Scan, pieces: seq<seq<u8>>)
    requires Join(pieces) == []
    ensures KeptAll(s, pieces) == []
    decreases |pieces|
  {
    if pieces != [] { KeptNothing(s, pieces[1..]); }
  }

  /** However the first witness is cut, what is hashed is its header, what is kept of its lock, and the
      other fields. */
  lemma {:induction false} ReadFold(d: Digest, st: St, ps: seq<seq<u8>>, w: seq<Event>)
    requires d.multisig && d.args == Parsing(st) && Reads(st, ps, w) && InOrder(w, 0, 2)
    ensures Join(LockCuts(st, ps)) == Collect(LockPart, w)
    ensures var e := ReadPieces(d, ps);
            && e.main == d.main + Collect(HeadPart, w) + KeptAll(d.scan, LockCuts(st, ps)) + Collect(TypePart, w)
            && e.args == Parsed && e.firstDone && e.txHash == d.txHash && e.isFirst == d.isFirst
    decreases |ps|
  {
    var r := Go(WitnessArgs(), NUM_MAX, st, ps[0]);
    var v := View(MULTISIG, r.ev);
    var cut := Collect(LockPart, v);
    ReadsFirst(st, ps, w);
    PassParts(d, r.ev);
    var d1 := ReadFirst(d, ps[0]);
    if |ps| == 1 {
      OneCut(st, ps);
      OneRead(d, st, ps);
      hide *;
    } else {
      assert d1.args == Parsing(r.st) && d1.multisig;
      assert ReadPieces(d, ps) == ReadPieces(d1, ps[1..]);
      MoreCuts(st, ps);
      hide *;
      var w2 :| Reads(r.st, ps[1..], w2) && w == v + w2;
      OrderSplit(v, w2, 0, 2);
      CollectPlus(HeadPart, v, w2);
      CollectPlus(LockPart, v, w2);
      CollectPlus(TypePart, v, w2);
      ReadFold(d1, r.st, ps[1..], w2);
      var cuts := LockCuts(r.st, ps[1..]);
      if Collect(LockPart, w2) == [] { KeptNothing(d1.scan, cuts); }
      KeptEmpty(d.scan, cut);
      KeptMore(d.scan, cut, cuts);
      TakenTogether(d.main, Collect(HeadPart, v), LockKept(d.scan, cut), Collect(TypePart, v),
                    Collect(HeadPart, w2), KeptAll(d1.scan, cuts), Collect(TypePart, w2));
    }
  }

  lemma {:induction false} OneRead(d: Digest, st: St, ps: seq<seq<u8>>)
    requires d.args == Parsing(st) && |ps| == 1 && Go(WitnessArgs(), NUM_MAX, st, ps[0]).rv == COMPLETE
    ensures ReadPieces(d, ps) == Pass(d, Go(WitnessArgs(), NUM_MAX, st, ps[0]).ev).(args := Parsed, firstDone := true)
  {
    hide Go, Pass;
  }

  lemma {:induction false} KeptEmpty(s: Scan, bs: seq<u8>)
    ensures LockKept(s, bs) != [] ==> bs != []
  {
  }

  lemma {:induction false} KeptMore(s: Scan, cut: seq<u8>, cuts: seq<seq<u8>>)
    ensures KeptAll(s, [cut] + cuts) == LockKept(s, cut) + KeptAll(Scanned(s, cut), cuts) && Join([cut] + cuts) == cut + Join(cuts)
  {
    assert ([cut] + cuts)[1..] == cuts;
  }

  lemma {:induction false} OneCut(st: St, ps: seq<seq<u8>>)
    requires |ps| == 1 && Go(WitnessArgs(), NUM_MAX, st, ps[0]).rv == COMPLETE
    ensures var cut := Collect(LockPart, View(MULTISIG, Go(WitnessArgs(), NUM_MAX, st, ps[0]).ev));
            Join(LockCuts(st, ps)) == cut && forall s :: KeptAll(s, LockCuts(st, ps)) == LockKept(s, cut)
  {
    var cut := Collect(LockPart, View(MULTISIG, Go(WitnessArgs(), NUM_MAX, st, ps[0]).ev));
    hide Go, View, Collect;
    ghost var none: seq<seq<u8>> := [];
    assert LockCuts(st, ps) == [cut] + none;
    forall s ensures KeptAll(s, [cut] + none) == LockKept(s, cut) { KeptMore(s, cut, none); }
    KeptMore(NO_SCAN, cut, none);
  }

  lemma {:induction false} MoreCuts(st: St, ps: seq<seq<u8>>)
    requires |ps| > 1 && Go(WitnessArgs(), NUM_MAX, st, ps[0]).rv == INCOMPLETE
    ensures var r := Go(WitnessArgs(), NUM_MAX, st, ps[0]);
            LockCuts(st, ps) == [Collect(LockPart, View(MULTISIG, r.ev))] + LockCuts(r.st, ps[1..])
  {
    hide Go, View, Collect;
  }

  // ---------- Well-formed arguments ----------

  /** The arguments with another lock. */
  function Relocked(a: Val, lock: seq<u8>): Val
    requires ArgsShape(a)
  {
    Items([Some(Blob(lock)), a.vals[1], a.vals[2]])
  }

  lemma {:induction false} CollectNone(ev: seq<Event>, s: nat)
    requires forall i | 0 <= i < |ev| :: Stage(ev[i]) == 3
    ensures Collect(HeadPart, ev) == [] && Collect(LockPart, ev) == [] && Collect(TypePart, ev) == [] && InOrder(ev, s, s)
    decreases |ev|
  {
    if ev != [] {
      assert Stage(ev[0]) == 3;
      CollectNone(ev[1..], s);
      hide HeadGiven;
    }
  }

  lemma {:induction false} ChunksInOrder(t: Tag, bs: seq<u8>)
    ensures InOrder(ChunkBytes(t, bs), 2, 2)
    decreases |bs|
  {
    if bs != [] {
      var ev := ChunkBytes(t, bs);
      assert ev[0] == Chunk(t, [bs[0]]) && ev[1..] == ChunkBytes(t, bs[1..]);
      ChunksInOrder(t, bs[1..]);
    }
  }

  lemma {:induction false} BodiesInOrder(t: Tag, bs: seq<u8>)
    ensures InOrder(BodyBytes(t, bs), 1, 1)
    decreases |bs|
  {
    if bs != [] {
      var ev := BodyBytes(t, bs);
      assert ev[0] == Body(t, [bs[0]]) && ev[1..] == BodyBytes(t, bs[1..]);
      BodiesInOrder(t, bs[1..]);
    }
  }

  /** What the callbacks of part of a log contribute, and that they do so in order. */
  ghost predicate Gives(ev: seq<Event>, h: seq<u8>, k: seq<u8>, t: seq<u8>, from: nat, to: nat) {
    var w := View(MULTISIG, ev);
    Collect(HeadPart, w) == h && Collect(LockPart, w) == k && Collect(TypePart, w) == t && InOrder(w, from, to)
  }

  lemma {:induction false} GivesPlus(a: seq<Event>, b: seq<Event>, h: seq<u8>, k: seq<u8>, t: seq<u8>, h2: seq<u8>, k2: seq<u8>, t2: seq<u8>,
                                     from: nat, mid: nat, to: nat)
    requires Gives(a, h, k, t, from, mid) && Gives(b, h2, k2, t2, mid, to)
    ensures Gives(a + b, h + h2, k + k2, t + t2, from, to)
  {
    var x, y := View(MULTISIG, a), View(MULTISIG, b);
    ViewPlus(MULTISIG, a, b);
    CollectPlus(HeadPart, x, y);
    CollectPlus(LockPart, x, y);
    CollectPlus(TypePart, x, y);
    OrderPlus(x, y, from, mid, to);
    hide View, Collect, InOrder;
  }

  lemma {:induction false} GivesSum(a: seq<Event>, b: seq<Event>, h: seq<u8>, k: seq<u8>, t: seq<u8>, h2: seq<u8>, k2: seq<u8>, t2: seq<u8>,
                                    from: nat, mid: nat, to: nat, h3: seq<u8>, k3: seq<u8>, t3: seq<u8>)
    requires Gives(a, h, k, t, from, mid) && Gives(b, h2, k2, t2, mid, to) && h3 == h + h2 && k3 == k + k2 && t3 == t + t2
    ensures Gives(a + b, h3, k3, t3, from, to)
  {
    GivesPlus(a, b, h, k, t, h2, k2, t2, from, mid, to);
  }

  /** Callbacks that contribute nothing may follow. */
  lemma {:induction false} ThenQuiet(a: seq<Event>, b: seq<Event>, h: seq<u8>, k: seq<u8>, t: seq<u8>, from: nat, to: nat)
    requires Gives(a, h, k, t, from, to) && Gives(b, [], [], [], to, to)
    ensures Gives(a + b, h, k, t, from, to)
  {
    hide Gives;
    GivesSum(a, b, h, k, t, [], [], [], from, to, to, h, k, t);
  }

  lemma {:induction false} QuietGives(ev: seq<Event>, s: nat)
    requires View(MULTISIG, ev) == [] || (|View(MULTISIG, ev)| == 1 && Stage(View(MULTISIG, ev)[0]) == 3)
    ensures Gives(ev, [], [], [], s, s)
  {
    CollectNone(View(MULTISIG, ev), s);
  }

  lemma {:induction false} LockReplay(lock: seq<u8>)
    requires 0 < |lock| && |lock| + 4 < U32_SIZE
    ensures var s, v := Option(Quiet, Bytes(WitnessLock)), Val.Some(Blob(lock));
            && Typed(s, v) && Encode(s, v) == Pack(|lock|) + lock
            && Replay(s, v) == [Size(WitnessLock, |lock| + 4)] + [Body(WitnessLock, lock)]
                               + [End(WitnessLock), Chunk(Quiet, Encode(s, v)), End(Quiet)]
  {
    var s, v := Option(Quiet, Bytes(WitnessLock)), Val.Some(Blob(lock));
    var inner, tail := Replay(Bytes(WitnessLock), Blob(lock)), [Chunk(Quiet, Encode(s, v)), End(Quiet)];
    assert inner == [Size(WitnessLock, |lock| + 4)] + [Body(WitnessLock, lock)] + [End(WitnessLock)];
    OptionReplay(s, v);
    hide Replay, Encode, Typed;
    assert [Size(WitnessLock, |lock| + 4)] + [Body(WitnessLock, lock)] + [End(WitnessLock)] + tail
        == [Size(WitnessLock, |lock| + 4)] + [Body(WitnessLock, lock)] + ([End(WitnessLock)] + tail);
  }

  lemma {:induction false} OptionReplay(s: Schema, v: Val)
    requires s.Option? && Typed(s, v) && v.Some?
    ensures Encode(s, v) == Encode(s.item, v.val)
    ensures Replay(s, v) == Replay(s.item, v.val) + [Chunk(s.tag, Encode(s, v)), End(s.tag)]
  {
    WithinOption(s, v);
  }

  lemma {:induction false} WithinOption(s: Schema, v: Val)
    requires s.Option? && Typed(s, v) && v.Some?
    ensures Encode(s, v) == Encode(s.item, v.val) && Within(s, v) == Replay(s.item, v.val)
  {
    var kids := [v.val];
    var r := Replay(s.item, v.val);
    assert KidVals(s, v) == kids && Kid(s, 0) == s.item && !Hollow(s, v) && EnterEv(s, Kept(s, v), 1) == [] && BetweenEv(s, 0) == [];
    assert ReplayKids(s, kids, 1) == [];
    assert ReplayKids(s, kids, 0) == r + BetweenEv(s, 0) + ReplayKids(s, kids, 1);
    hide *;
    assert [] + (r + [] + []) == r;
  }

  /** The lock. */
  lemma {:induction false} LockGives(lock: seq<u8>)
    requires 0 < |lock| && |lock| + 4 < U32_SIZE
    ensures var s, v := Option(Quiet, Bytes(WitnessLock)), Val.Some(Blob(lock));
            Typed(s, v) && Encode(s, v) == Pack(|lock|) + lock && Gives(Replay(s, v), Pack(|lock|), lock, [], 0, 1)
  {
    LockReplay(lock);
    hide *;
    var s, v := Option(Quiet, Bytes(WitnessLock)), Val.Some(Blob(lock));
    var size, body, end := [Size(WitnessLock, |lock| + 4)], [Body(WitnessLock, lock)], [End(WitnessLock), Chunk(Quiet, Encode(s, v)), End(Quiet)];
    SizeGives(|lock|);
    BodyGives(lock);
    EndGives(Encode(s, v));
    GivesSum(size, body, Pack(|lock|), [], [], [], lock, [], 0, 1, 1, Pack(|lock|), lock, []);
    ThenQuiet(size + body, end, Pack(|lock|), lock, [], 0, 1);
  }

  lemma {:induction false} SizeGives(n: nat)
    requires n + 4 < U32_SIZE
    ensures Gives([Size(WitnessLock, n + 4)], Pack(n), [], [], 0, 1)
  {
    var e := Size(WitnessLock, n + 4);
    OneView(MULTISIG, e);
    assert [e][1..] == [];
    CollectOne(HeadPart, e);
    CollectOne(LockPart, e);
    CollectOne(TypePart, e);
  }

  lemma {:induction false} BodyGives(lock: seq<u8>)
    ensures Gives([Body(WitnessLock, lock)], [], lock, [], 1, 1)
  {
    var e := Body(WitnessLock, lock);
    OneView(MULTISIG, e);
    CollectBody(HeadPart, WitnessLock, lock);
    CollectBody(LockPart, WitnessLock, lock);
    CollectBody(TypePart, WitnessLock, lock);
    BodiesInOrder(WitnessLock, lock);
  }

  lemma {:induction false} EndGives(bs: seq<u8>)
    ensures Gives([End(WitnessLock), Chunk(Quiet, bs), End(Quiet)], [], [], [], 1, 1)
  {
    var ev := [End(WitnessLock), Chunk(Quiet, bs), End(Quiet)];
    assert ev == [End(WitnessLock)] + [Chunk(Quiet, bs)] + [End(Quiet)];
    ViewPlus(MULTISIG, [End(WitnessLock)] + [Chunk(Quiet, bs)], [End(Quiet)]);
    ViewPlus(MULTISIG, [End(WitnessLock)], [Chunk(Quiet, bs)]);
    OneView(MULTISIG, End(WitnessLock));
    OneView(MULTISIG, Chunk(Quiet, bs));
    OneView(MULTISIG, End(Quiet));
    QuietGives(ev, 1);
  }

  /** A field all of whose bytes are passed on. */
  lemma {:induction false} TypeGives(t: Tag, v: Val)
    requires t == WitnessInType || t == WitnessOutType
    requires Typed(Option(t, Bytes(Quiet)), v) && |Encode(Option(t, Bytes(Quiet)), v)| < U32_SIZE
    ensures var s := Option(t, Bytes(Quiet)); Gives(Replay(s, v), [], [], Encode(s, v), 2, 2)
  {
    var s := Option(t, Bytes(Quiet));
    var bs := Encode(s, v);
    NodeView(MULTISIG, s, v);
    assert ChunkBytes(t, bs) + [] == ChunkBytes(t, bs);
    CollectChunk(HeadPart, t, bs);
    CollectChunk(LockPart, t, bs);
    CollectChunk(TypePart, t, bs);
    ChunksInOrder(t, bs);
  }

  /** The starts of fields, and the end of the arguments. */
  lemma {:induction false} StartGives(t: Tag, u: Tag, s: nat)
    ensures t != WitnessLock && u != WitnessLock ==> Gives([Start(t), Start(u)], [], [], [], s, s)
  {
    assert [Start(t), Start(u)] == [Start(t)] + [Start(u)];
    ViewPlus(MULTISIG, [Start(t)], [Start(u)]);
    OneView(MULTISIG, Start(t));
    OneView(MULTISIG, Start(u));
    if t != WitnessLock && u != WitnessLock { QuietGives([Start(t), Start(u)], s); }
  }

  lemma {:induction false} ArgsEndGives(bs: seq<u8>)
    ensures Gives([Chunk(WitnessTable, bs), End(WitnessTable)], [], [], [], 2, 2)
  {
    var ev := [Chunk(WitnessTable, bs), End(WitnessTable)];
    assert ev == [Chunk(WitnessTable, bs)] + [End(WitnessTable)];
    ViewPlus(MULTISIG, [Chunk(WitnessTable, bs)], [End(WitnessTable)]);
    OneView(MULTISIG, Chunk(WitnessTable, bs));
    OneView(MULTISIG, End(WitnessTable));
    QuietGives(ev, 2);
  }

  /** The length and the header of witness arguments. */
  function HeadBytesOf(ws: seq<u32>): seq<u8>
    requires |ws| == 4
  {
    Pack64(ws[0]) + (Pack(ws[0]) + Pack(ws[1]) + Pack(ws[2]) + Pack(ws[3]))
  }

  lemma {:induction false} EnterGives(ws: seq<u32>)
    requires |ws| == 4
    ensures Gives([Start(Quiet), Start(WitnessLock)] + [Offsets(WitnessTable, ws)], HeadBytesOf(ws), [], [], 0, 0)
  {
    var a := [Start(Quiet), Start(WitnessLock)];
    assert a == [Start(Quiet)] + [Start(WitnessLock)];
    ViewPlus(MULTISIG, [Start(Quiet)], [Start(WitnessLock)]);
    OneView(MULTISIG, Start(Quiet));
    OneView(MULTISIG, Start(WitnessLock));
    QuietGives(a, 0);
    hide *;
    OffsetsGive(ws);
    GivesSum(a, [Offsets(WitnessTable, ws)], [], [], [], HeadBytesOf(ws), [], [], 0, 0, 0, HeadBytesOf(ws), [], []);
  }

  lemma {:induction false} OffsetsGive(ws: seq<u32>)
    requires |ws| == 4
    ensures Gives([Offsets(WitnessTable, ws)], HeadBytesOf(ws), [], [], 0, 0)
  {
    var e := Offsets(WitnessTable, ws);
    OneView(MULTISIG, e);
    CollectOne(HeadPart, e);
    CollectOne(LockPart, e);
    CollectOne(TypePart, e);
    assert View(MULTISIG, [e]) == [e] && Given(HeadPart, e) == HeadBytesOf(ws) && |HeadBytesOf(ws)| > 0;
    OneInOrder(e, 0);
    hide HeadBytesOf, Collect, View, InOrder, HeadGiven;
  }

  lemma {:induction false} OneInOrder(e: Event, s: nat)
    requires Stage(e) == s
    ensures InOrder([e], s, s)
  {
    assert [e][1..] == [];
  }

  /** The arguments in seven parts. */
  lemma {:induction false} SevenGive(enter: seq<Event>, r0: seq<Event>, i1: seq<Event>, r1: seq<Event>, i2: seq<Event>, r2: seq<Event>,
                                     end: seq<Event>, head: seq<u8>, len: seq<u8>, lock: seq<u8>, t1: seq<u8>, t2: seq<u8>)
    requires Gives(enter, head, [], [], 0, 0) && Gives(r0, len, lock, [], 0, 1) && Gives(i1, [], [], [], 1, 1) && Gives(r1, [], [], t1, 2, 2)
    requires Gives(i2, [], [], [], 2, 2) && Gives(r2, [], [], t2, 2, 2) && Gives(end, [], [], [], 2, 2)
    ensures Gives(enter + (r0 + i1 + (r1 + i2 + r2)) + end, head + len, lock, t1 + t2, 0, 2)
  {
    assert Gives(r1, [], [], t1, 1, 2) by { OrderWider(View(MULTISIG, r1), 2, 2, 1, 2); }
    hide *;
    ThenQuiet(r1, i2, [], [], t1, 1, 2);
    GivesSum(r1 + i2, r2, [], [], t1, [], [], t2, 1, 2, 2, [], [], t1 + t2);
    ThenQuiet(r0, i1, len, lock, [], 0, 1);
    GivesSum(r0 + i1, r1 + i2 + r2, len, lock, [], [], [], t1 + t2, 0, 1, 2, len, lock, t1 + t2);
    GivesSum(enter, r0 + i1 + (r1 + i2 + r2), head, [], [], len, lock, t1 + t2, 0, 0, 2, head + len, lock, t1 + t2);
    ThenQuiet(enter + (r0 + i1 + (r1 + i2 + r2)), end, head + len, lock, t1 + t2, 0, 2);
  }

  /** What the callbacks on well-formed arguments contribute. */
  lemma {:induction false} ArgsGive(a: Val, lock: seq<u8>)
    requires ArgsShape(a) && Typed(WitnessArgs(), a) && |Encode(WitnessArgs(), a)| < U32_SIZE
    requires a.vals[0] == Some(Blob(lock)) && 0 < |lock| && |lock| + 4 < U32_SIZE
    ensures Kept(WitnessArgs(), a) == HeadWords(ArgsParts(a)) && |HeadWords(ArgsParts(a))| == 4
    ensures Gives(Replay(WitnessArgs(), a), HeadBytesOf(HeadWords(ArgsParts(a))) + Pack(|lock|), lock, ArgsParts(a)[1] + ArgsParts(a)[2], 0, 2)
  {
    var s := WitnessArgs();
    ArgsFacts(a, lock);
    hide *;
    var f, p := s.fields, ArgsParts(a);
    ArgsEncode(a);
    FourWords(p);
    LockGives(lock);
    TypeGives(WitnessInType, a.vals[1]);
    TypeGives(WitnessOutType, a.vals[2]);
    EnterGives(HeadWords(p));
    StartGives(WitnessInType, Quiet, 1);
    StartGives(WitnessOutType, Quiet, 2);
    ArgsEndGives(Encode(s, a));
    ArgsWithin(a);
    ArgsEvents(a);
    SevenGive(EnterEv(s, Kept(s, a), 3), Replay(f[0], a.vals[0]), InitEv(f[1]), Replay(f[1], a.vals[1]), InitEv(f[2]), Replay(f[2], a.vals[2]),
              [Chunk(WitnessTable, Encode(s, a)), End(WitnessTable)], HeadBytesOf(HeadWords(p)), Pack(|lock|), lock, p[1], p[2]);
  }

  /** The fields of well-formed arguments. */
  lemma {:induction false} ArgsFacts(a: Val, lock: seq<u8>)
    requires ArgsShape(a) && Typed(WitnessArgs(), a) && |Encode(WitnessArgs(), a)| < U32_SIZE && a.vals[0] == Some(Blob(lock))
    ensures var s := WitnessArgs();
            && s.Table? && a.Items? && |a.vals| == 3 && |ArgsParts(a)| == 3
            && s.fields == [Option(Quiet, Bytes(WitnessLock)), Option(WitnessInType, Bytes(Quiet)), Option(WitnessOutType, Bytes(Quiet))]
            && Typed(s.fields[1], a.vals[1]) && |Encode(s.fields[1], a.vals[1])| < U32_SIZE && ArgsParts(a)[1] == Encode(s.fields[1], a.vals[1])
            && Typed(s.fields[2], a.vals[2]) && |Encode(s.fields[2], a.vals[2])| < U32_SIZE && ArgsParts(a)[2] == Encode(s.fields[2], a.vals[2])
  {
    var s := WitnessArgs();
    KidSmall(s, a, 1);
    KidSmall(s, a, 2);
    assert Kid(s, 1) == s.fields[1] && Kid(s, 2) == s.fields[2];
    hide Typed, Encode;
  }

  lemma {:induction false} FourWords(p: seq<seq<u8>>)
    requires |p| == 3
    ensures |HeadWords(p)| == 4
  {
  }

  // ---------- The theorem ----------

  lemma {:induction false} RelockedShape(a: Val, lock: seq<u8>)
    requires ArgsShape(a)
    ensures ArgsShape(Relocked(a, lock)) && Typed(WitnessArgs(), Relocked(a, lock))
  {
    ArgsShaped(Relocked(a, lock));
  }

  /** The arguments with another lock of the same length, behind their length. */
  lemma {:induction false} RelockedBytes(a: Val, lock: seq<u8>, x: seq<u8>)
    requires ArgsShape(a) && Typed(WitnessArgs(), a) && |Encode(WitnessArgs(), a)| < U32_SIZE
    requires a.vals[0] == Some(Blob(lock)) && 0 < |lock| == |x|
    ensures |lock| + 4 < U32_SIZE && |HeadWords(ArgsParts(a))| == 4 && Typed(WitnessArgs(), Relocked(a, x))
    ensures Lengthened(Encode(WitnessArgs(), Relocked(a, x)))
         == HeadBytesOf(HeadWords(ArgsParts(a))) + Pack(|lock|) + x + (ArgsParts(a)[1] + ArgsParts(a)[2])
  {
    var b := Relocked(a, x);
    var p, q := ArgsParts(a), ArgsParts(b);
    RelockedShape(a, x);
    SameTypes(a, x);
    hide *;
    ArgsEncode(a);
    ArgsEncode(b);
    LockPart0(a, lock);
    LockPart0(b, x);
    FourWords(p);
    FourBytes(HeadWords(p));
    ThreeJoin(p);
    ThreeJoin(q);
    SameHead(p, q);
    var ws := HeadWords(p);
    HeadIs(ws, 16 + |Join(q)|);
    LengthenedIs(WordBytes(ws), Join(q));
    SameParts(Pack64(ws[0]), WordBytes(ws), Pack(|lock|), x, p[1], p[2]);
  }

  /** The header depends only on the lengths of the parts. */
  lemma {:induction false} SameHead(p: seq<seq<u8>>, q: seq<seq<u8>>)
    requires |p| == |q| == 3 && |p[0]| == |q[0]| && |p[1]| == |q[1]| && |p[2]| == |q[2]| && 16 + |Join(p)| < U32_SIZE
    ensures HeadWords(q) == HeadWords(p) && |HeadWords(p)| == 4 && HeadWords(p)[0] == 16 + |Join(q)|
  {
    ThreeJoin(p);
    ThreeJoin(q);
    hide Join, HeadWords;
    HeadOfThree(p);
    HeadOfThree(q);
  }

  lemma {:induction false} SameTypes(a: Val, x: seq<u8>)
    requires ArgsShape(a) && ArgsShape(Relocked(a, x))
    ensures var b := Relocked(a, x);
            && |ArgsParts(a)| == |ArgsParts(b)| == 3 && ArgsParts(b)[1] == ArgsParts(a)[1] && ArgsParts(b)[2] == ArgsParts(a)[2]
            && b.vals[0] == Some(Blob(x)) && b.Items? && |b.vals| == 3
  {
    hide Encode;
  }

  lemma {:induction false} LockPart0(a: Val, lock: seq<u8>)
    requires ArgsShape(a) && a.vals[0] == Some(Blob(lock))
    ensures ArgsParts(a)[0] == Encode(Option(Quiet, Bytes(WitnessLock)), Val.Some(Blob(lock)))
    ensures |lock| < U32_SIZE ==> ArgsParts(a)[0] == Pack(|lock|) + lock
  {
  }

  lemma {:induction false} FourBytes(ws: seq<u32>)
    requires |ws| == 4
    ensures |WordBytes(ws)| == 16 && WordBytes(ws) == Pack(ws[0]) + Pack(ws[1]) + Pack(ws[2]) + Pack(ws[3])
  {
    WordsOfFour(ws[0], ws[1], ws[2], ws[3]);
    assert ws == [ws[0], ws[1], ws[2], ws[3]];
  }

  lemma {:induction false} HeadIs(ws: seq<u32>, n: nat)
    requires |ws| == 4 && ws[0] == n
    ensures HeadBytesOf(ws) == Pack64(n) + WordBytes(ws)
  {
    FourBytes(ws);
    hide Pack, Pack64, WordBytes;
  }

  lemma {:induction false} LengthenedIs(head: seq<u8>, body: seq<u8>)
    ensures Lengthened(head + body) == Pack64(|head| + |body|) + (head + body)
  {
    hide Pack64;
  }

  lemma {:induction false} SameParts(n: seq<u8>, head: seq<u8>, len: seq<u8>, x: seq<u8>, t1: seq<u8>, t2: seq<u8>)
    ensures n + (head + (len + x + t1 + t2)) == n + head + len + x + (t1 + t2)
  {
  }

  /** However the first witness of a transaction with a multisig input arrives, what is hashed of it is its
      arguments with the lock as its pieces leave it: with all signatures zeroed exactly if the bytes
      behind the piece that the script ends inside of are zero already. */
  lemma {:induction false} MultisigHashed(d: Digest, a: Val, lock: seq<u8>, ps: seq<seq<u8>>)
    requires ArgsShape(a) && Typed(WitnessArgs(), a) && |Encode(WitnessArgs(), a)| < U32_SIZE
    requires a.vals[0] == Some(Blob(lock)) && Multisig(lock)
    requires d.multisig && d.args == Parsing(Init(WitnessArgs())) && d.scan == NO_SCAN
    requires ps != [] && (forall i | 0 <= i < |ps| :: ps[i] != []) && Join(ps) == Encode(WitnessArgs(), a)
    ensures var cuts := LockCuts(Init(WitnessArgs()), ps);
            var kept, e := KeptAll(NO_SCAN, cuts), ReadPieces(d, ps);
            && Join(cuts) == lock && |kept| == |lock| && e.args == Parsed && e.firstDone
            && Typed(WitnessArgs(), Relocked(a, kept)) && e.main == d.main + Lengthened(Encode(WitnessArgs(), Relocked(a, kept)))
            && Typed(WitnessArgs(), Relocked(a, Unsign(lock)))
            && (e.main == d.main + Lengthened(Encode(WitnessArgs(), Relocked(a, Unsign(lock))))
                <==> forall i | SweptTo(cuts, 0, ScriptOf(lock)) <= i < |lock| :: lock[i] == 0)
  {
    var st := Init(WitnessArgs());
    var w := View(MULTISIG, Replay(WitnessArgs(), a));
    ArgsRead(a, ps);
    RelockedBytes(a, lock, lock);
    ArgsGive(a, lock);
    var head, types := HeadBytesOf(HeadWords(ArgsParts(a))) + Pack(|lock|), ArgsParts(a)[1] + ArgsParts(a)[2];
    assert Collect(HeadPart, w) == head && Collect(LockPart, w) == lock && Collect(TypePart, w) == types && InOrder(w, 0, 2);
    assert |Unsign(lock)| == |lock|;
    hide *;
    ReadFold(d, st, ps, w);
    var cuts := LockCuts(st, ps);
    var kept := KeptAll(NO_SCAN, cuts);
    KeptLength(lock, cuts);
    SignaturesZeroed(lock, cuts);
    RelockedBytes(a, lock, kept);
    RelockedBytes(a, lock, Unsign(lock));
    Framed(d.main, head, kept, types);
    Framed(d.main, head, Unsign(lock), types);
    FramedSame(d.main, head, kept, Unsign(lock), types);
  }

  lemma {:induction false} Framed(m: seq<u8>, h: seq<u8>, x: seq<u8>, t: seq<u8>)
    ensures m + (h + x + t) == m + h + x + t
  {
  }

  lemma {:induction false} FramedSame(m: seq<u8>, h: seq<u8>, x: seq<u8>, y: seq<u8>, t: seq<u8>)
    requires |x| == |y|
    ensures m + h + x + t == m + h + y + t <==> x == y
  {
    var a, b, n := m + h + x + t, m + h + y + t, |m + h|;
    assert a[n..n + |x|] == x && b[n..n + |x|] == y;
  }

  lemma {:induction false} KeptLength(lock: seq<u8>, pieces: seq<seq<u8>>)
    requires Multisig(lock) && Join(pieces) == lock
    ensures |KeptAll(NO_SCAN, pieces)| == |lock|
  {
    KeptFrom(NO_SCAN, lock, 0, pieces);
    hide KeptAll, SweptTo, Swept;
  }

  lemma {:induction false} ArgsRead(a: Val, ps: seq<seq<u8>>)
    requires ArgsShape(a) && Typed(WitnessArgs(), a) && |Encode(WitnessArgs(), a)| < U32_SIZE
    requires ps != [] && (forall i | 0 <= i < |ps| :: ps[i] != []) && Join(ps) == Encode(WitnessArgs(), a)
    ensures Reads(Init(WitnessArgs()), ps, View(MULTISIG, Replay(WitnessArgs(), a)))
  {
    var bs := Encode(WitnessArgs(), a);
    WitnessRegular();
    Trips(WitnessArgs(), NUM_MAX, a, []);
    assert bs + [] == bs;
    MultisigAnti();
    assert Still(WitnessArgs(), NUM_MAX, Init(WitnessArgs()));
    hide View, Go, Encode, Typed, Regular, Replay, Still, WitnessArgs;
  }
}
