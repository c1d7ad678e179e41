/** When do two logs of callbacks say the same?

    A log cut at different places by the chunking differs in where the `chunk` and `body_chunk`
    pieces end, and in how the pieces of a node interleave with the callbacks of the nodes
    below it. A channel is a choice of callbacks among which neither difference shows. */
module Views {
  import opened Words
  import opened Schema
  import opened Automaton

  /** The tags whose `chunk` pieces are kept, whose `size`, `length`, `index` and `offsets`
      calls are kept, and whose remaining callbacks are kept. */
  datatype Channel = Channel(chunk: set<Tag>, inner: set<Tag>, edge: set<Tag>)

  function ChunkBytes(t: Tag, bs: seq<u8>): (r: seq<Event>)
    ensures |r| == |bs|
  {
    seq(|bs|, i requires 0 <= i < |bs| => Chunk(t, [bs[i]]))
  }

  function BodyBytes(t: Tag, bs: seq<u8>): (r: seq<Event>)
    ensures |r| == |bs|
  {
    seq(|bs|, i requires 0 <= i < |bs| => Body(t, [bs[i]]))
  }

  function View1(K: Channel, e: Event): seq<Event> {
    match e
    case Chunk(t, bs) => if t in K.chunk then ChunkBytes(t, bs) else []
    case Body(t, bs) => if t in K.edge then BodyBytes(t, bs) else []
    case Start(t) => if t in K.edge then [e] else []
    case End(t) => if t in K.edge then [e] else []
    case Leaf(t, _) => if t in K.edge then [e] else []
    case _ => if e.tag in K.inner then [e] else []
  }

  /** The callbacks of the channel, pieces taken apart into single bytes. */
  function View(K: Channel, ev: seq<Event>): seq<Event> {
    if ev == [] then [] else View1(K, ev[0]) + View(K, ev[1..])
  }

  predicate Watched(K: Channel, t: Tag) {
    t in K.chunk || t in K.inner || t in K.edge
  }

  ghost predicate Mute(K: Channel, s: Schema) {
    && !Watched(K, s.tag)
    && match s
       case Struct(_, fields) => forall i | 0 <= i < |fields| :: Mute(K, fields[i])
       case Table(_, fields) => forall i | 0 <= i < |fields| :: Mute(K, fields[i])
       case FixVec(_, item, _) => Mute(K, item)
       case DynVec(_, item) => Mute(K, item)
       case Option(_, item) => Mute(K, item)
       case _ => true
  }

  ghost predicate MuteKids(K: Channel, s: Schema) {
    match s
    case Struct(_, fields) => forall i | 0 <= i < |fields| :: Mute(K, fields[i])
    case Table(_, fields) => forall i | 0 <= i < |fields| :: Mute(K, fields[i])
    case FixVec(_, item, _) => Mute(K, item)
    case DynVec(_, item) => Mute(K, item)
    case Option(_, item) => Mute(K, item)
    case _ => true
  }

  /** A node whose `chunk` pieces are kept keeps no callback fired while it is being read.
      The readers of byte strings do not pass on all their bytes as `chunk` pieces. */
  ghost predicate Anti(K: Channel, s: Schema) {
    && (s.tag in K.chunk ==> s.tag !in K.inner && MuteKids(K, s) && !s.Bytes?)
    && match s
       case Struct(_, fields) => forall i | 0 <= i < |fields| :: Anti(K, fields[i])
       case Table(_, fields) => forall i | 0 <= i < |fields| :: Anti(K, fields[i])
       case FixVec(_, item, _) => Anti(K, item)
       case DynVec(_, item) => Anti(K, item)
       case Option(_, item) => Anti(K, item)
       case _ => true
  }

  lemma {:induction false} ViewPlus(K: Channel, a: seq<Event>, b: seq<Event>)
    ensures View(K, a + b) == View(K, a) + View(K, b)
  {
    if a == [] {
      assert a + b == b;
    } else {
      assert (a + b)[1..] == a[1..] + b;
      ViewPlus(K, a[1..], b);
    }
  }

  lemma {:induction false} MuteAnti(K: Channel, s: Schema)
    requires Mute(K, s)
    ensures Anti(K, s)
  {
    if s.Struct? || s.Table? {
      forall i | 0 <= i < |s.fields| ensures Anti(K, s.fields[i]) { MuteAnti(K, s.fields[i]); }
    } else if s.FixVec? || s.DynVec? || s.Option? {
      MuteAnti(K, s.item);
    }
  }

  /** On every channel the two logs say the same. */
  ghost predicate Same(s: Schema, a: seq<Event>, b: seq<Event>) {
    forall K | Anti(K, s) :: View(K, a) == View(K, b)
  }

  /** All callbacks in the log belong to the nodes of the schema. */
  ghost predicate From(s: Schema, ev: seq<Event>) {
    forall K | Mute(K, s) :: View(K, ev) == []
  }

  /** No callback in the log shows on a channel that keeps the node's own `chunk` pieces. */
  ghost predicate Inner(s: Schema, ev: seq<Event>) {
    forall K | Anti(K, s) && s.tag in K.chunk :: View(K, ev) == []
  }

  lemma {:induction false} SamePlus(s: Schema, a: seq<Event>, b: seq<Event>, c: seq<Event>, d: seq<Event>)
    requires Same(s, a, b) && Same(s, c, d)
    ensures Same(s, a + c, b + d)
  {
    forall K | Anti(K, s) ensures View(K, a + c) == View(K, b + d) {
      ViewPlus(K, a, c);
      ViewPlus(K, b, d);
    }
  }

  lemma {:induction false} FromPlus(s: Schema, a: seq<Event>, b: seq<Event>)
    requires From(s, a) && From(s, b)
    ensures From(s, a + b)
  {
    forall K | Mute(K, s) ensures View(K, a + b) == [] { ViewPlus(K, a, b); }
  }

  lemma {:induction false} InnerPlus(s: Schema, a: seq<Event>, b: seq<Event>)
    requires Inner(s, a) && Inner(s, b)
    ensures Inner(s, a + b)
  {
    forall K | Anti(K, s) && s.tag in K.chunk ensures View(K, a + b) == [] { ViewPlus(K, a, b); }
  }

  ghost predicate IsChild(c: Schema, s: Schema) {
    match s
    case Struct(_, fields) => c in fields
    case Table(_, fields) => c in fields
    case FixVec(_, item, _) => c == item
    case DynVec(_, item) => c == item
    case Option(_, item) => c == item
    case _ => false
  }

  lemma {:induction false} SameUp(s: Schema, c: Schema, a: seq<Event>, b: seq<Event>)
    requires IsChild(c, s) && Same(c, a, b)
    ensures Same(s, a, b)
  {
  }

  lemma {:induction false} FromUp(s: Schema, c: Schema, ev: seq<Event>)
    requires IsChild(c, s) && From(c, ev)
    ensures From(s, ev) && Inner(s, ev)
  {
  }

  lemma {:induction false} FromSame(s: Schema, a: seq<Event>, b: seq<Event>)
    requires From(s, a) && Same(s, a, b)
    ensures From(s, b)
  {
    forall K | Mute(K, s) ensures View(K, b) == [] { MuteAnti(K, s); }
  }

  lemma {:induction false} OneView(K: Channel, e: Event)
    ensures View(K, [e]) == View1(K, e)
  {
    assert [e][1..] == [];
  }

  /** Pieces of a node's bytes may be delivered together, after the callbacks between them. */
  lemma {:induction false} Slide(s: Schema, ev: seq<Event>, a: seq<u8>, b: seq<u8>)
    requires Inner(s, ev)
    ensures Same(s, [Chunk(s.tag, a)] + ev + [Chunk(s.tag, b)], ev + [Chunk(s.tag, a + b)])
  {
    var t := s.tag;
    forall K | Anti(K, s)
      ensures View(K, [Chunk(t, a)] + ev + [Chunk(t, b)]) == View(K, ev + [Chunk(t, a + b)])
    {
      hide View;
      ViewPlus(K, [Chunk(t, a)] + ev, [Chunk(t, b)]);
      ViewPlus(K, [Chunk(t, a)], ev);
      ViewPlus(K, ev, [Chunk(t, a + b)]);
      OneView(K, Chunk(t, a));
      OneView(K, Chunk(t, b));
      OneView(K, Chunk(t, a + b));
      assert ChunkBytes(t, a) + ChunkBytes(t, b) == ChunkBytes(t, a + b);
    }
  }

  /** A piece without bytes does not show. */
  lemma {:induction false} NoPiece(s: Schema, t: Tag)
    ensures Same(s, [Chunk(t, [])], [])
  {
    forall K | Anti(K, s) ensures View(K, [Chunk(t, [])]) == View(K, []) {
      OneView(K, Chunk(t, []));
    }
  }

  /** Two results agree: same verdict, same number of bytes, same resting state, and, unless
      the stream is rejected, the same callbacks on every channel. */
  ghost predicate Eqv(s: Schema, r: Res, q: Res) {
    && r.rv == q.rv
    && r.used == q.used
    && (r.rv == INCOMPLETE ==> r.st == q.st)
    && (r.rv != REJECT ==> Same(s, r.ev, q.ev))
  }

  lemma {:induction false} EqvThen(s: Schema, a: seq<Event>, b: seq<Event>, used: nat, r: Res, q: Res)
    requires Same(s, a, b) && Eqv(s, r, q)
    ensures Eqv(s, Then(a, used, r), Then(b, used, q))
  {
    if r.rv != REJECT { SamePlus(s, a, b, r.ev, q.ev); }
  }

  lemma {:induction false} ThenThen(a: seq<Event>, m: nat, b: seq<Event>, n: nat, r: Res)
    ensures Then(a, m, Then(b, n, r)) == Then(a + b, m + n, r)
  {
    assert a + (b + r.ev) == a + b + r.ev;
  }
}
