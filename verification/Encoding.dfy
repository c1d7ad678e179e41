/** The Molecule serialization of RFC 0008, and the callbacks by which a reader should report a
    value it has read. */
module Encoding {
  import opened Words
  import opened Schema
  import opened Automaton

  /** Values: byte strings (of bytes, arrays and `Bytes`), sequences (of structs, tables and
      vectors), and options. */
  datatype Val = Blob(bytes: seq<u8>) | Items(vals: seq<Val>) | None | Some(val: Val)

  function Kid(s: Schema, i: nat): (c: Schema)
    requires s.Struct? || s.Table? ==> i < |s.fields|
    requires !s.IsLeaf() && !s.Bytes?
    ensures c < s
  {
    if s.Struct? || s.Table? then s.fields[i] else s.item
  }

  predicate Typed(s: Schema, v: Val)
    decreases s
  {
    match s
    case Byte(_) => v.Blob? && |v.bytes| == 1
    case Array(_, n) => v.Blob? && |v.bytes| == n
    case Bytes(_) => v.Blob?
    case Option(_, item) => v.None? || (v.Some? && Typed(item, v.val))
    case Struct(_, fields) => v.Items? && |v.vals| == |fields| && forall i {:trigger Typed(fields[i], v.vals[i])} | 0 <= i < |fields| :: Typed(fields[i], v.vals[i])
    case Table(_, fields) => v.Items? && |v.vals| == |fields| && forall i {:trigger Typed(fields[i], v.vals[i])} | 0 <= i < |fields| :: Typed(fields[i], v.vals[i])
    case FixVec(_, item, limit) =>
      v.Items? && Times(|v.vals|, FixedSize(item)) <= limit && forall i {:trigger Typed(item, v.vals[i])} | 0 <= i < |v.vals| :: Typed(item, v.vals[i])
    case DynVec(_, item) => v.Items? && forall i {:trigger Typed(item, v.vals[i])} | 0 <= i < |v.vals| :: Typed(item, v.vals[i])
  }

  function Join(parts: seq<seq<u8>>): seq<u8> {
    if parts == [] then [] else parts[0] + Join(parts[1..])
  }

  /** Where each part starts when the first starts at `at`. */
  function Offs(parts: seq<seq<u8>>, at: nat): (o: seq<u32>)
    ensures |o| == |parts|
  {
    if parts == [] then [] else [Low32(at)] + Offs(parts[1..], at + |parts[0]|)
  }

  function WordBytes(ws: seq<u32>): (b: seq<u8>)
    ensures |b| == 4 * |ws|
  {
    if ws == [] then [] else Pack(ws[0]) + WordBytes(ws[1..])
  }

  /** The header of a table or dynvec: its total size, then the offset of each part. */
  function HeadWords(parts: seq<seq<u8>>): (ws: seq<u32>)
    ensures |ws| == 1 + |parts|
  {
    [Low32(4 + 4 * |parts| + |Join(parts)|)] + Offs(parts, 4 + 4 * |parts|)
  }

  /** The encodings of the values from `k` on. */
  function Parts(s: Schema, vals: seq<Val>, k: nat): (parts: seq<seq<u8>>)
    requires !s.IsLeaf() && !s.Bytes? && k <= |vals|
    requires s.Struct? || s.Table? ==> |vals| == |s.fields|
    requires forall i | k <= i < |vals| :: Typed(Kid(s, i), vals[i])
    ensures |parts| == |vals| - k
    ensures forall i | 0 <= i < |parts| :: parts[i] == Encode(Kid(s, k + i), vals[k + i])
    decreases s, 0, |vals| - k
  {
    if k == |vals| then [] else [Encode(Kid(s, k), vals[k])] + Parts(s, vals, k + 1)
  }

  function Encode(s: Schema, v: Val): seq<u8>
    requires Typed(s, v)
    decreases s, 1
  {
    match s
    case Byte(_) => v.bytes
    case Array(_, _) => v.bytes
    case Bytes(_) => Pack(Low32(|v.bytes|)) + v.bytes
    case Option(_, item) => if v.None? then [] else Encode(item, v.val)
    case Struct(_, _) => Join(Parts(s, v.vals, 0))
    case FixVec(_, _, _) => Pack(Low32(|v.vals|)) + Join(Parts(s, v.vals, 0))
    case Table(_, _) =>
      var parts := Parts(s, v.vals, 0);
      WordBytes(HeadWords(parts)) + Join(parts)
    case DynVec(_, _) =>
      var parts := Parts(s, v.vals, 0);
      WordBytes(HeadWords(parts)) + Join(parts)
  }

  /** The children of a composite value. */
  function KidVals(s: Schema, v: Val): seq<Val>
    requires Typed(s, v)
  {
    if v.Items? then v.vals else if v.Some? then [v.val] else []
  }

  /** The header words a reader keeps. */
  function Kept(s: Schema, v: Val): seq<u32>
    requires Typed(s, v)
  {
    match s
    case Table(_, _) => HeadWords(Parts(s, v.vals, 0))
    case DynVec(_, _) => if v.vals == [] then [4] else HeadWords(Parts(s, v.vals, 0))[..2]
    case FixVec(_, _, _) => [Low32(|v.vals|)]
    case _ => []
  }

  /** The callbacks that report a value, in order, after its reader was initialised. */
  function Replay(s: Schema, v: Val): seq<Event>
    requires Typed(s, v)
    decreases s, 2
  {
    match s
    case Byte(t) => [Leaf(t, v.bytes)]
    case Array(t, _) => [Leaf(t, v.bytes)]
    case Bytes(t) => [Size(t, Low32(|v.bytes| + 4))] + (if v.bytes == [] then [] else [Body(t, v.bytes)]) + [End(t)]
    case _ => Within(s, v) + [Chunk(s.tag, Encode(s, v)), End(s.tag)]
  }

  /** Nothing is reported within an absent option or an empty dynvec. */
  predicate Hollow(s: Schema, v: Val) {
    v.None? || (s.DynVec? && v == Items([]))
  }

  /** The callbacks before a composite value's own last ones. */
  function Within(s: Schema, v: Val): seq<Event>
    requires Typed(s, v) && !s.IsLeaf() && !s.Bytes?
    decreases s, 1
  {
    if Hollow(s, v) then [] else EnterEv(s, Kept(s, v), |KidVals(s, v)|) + ReplayKids(s, KidVals(s, v), 0)
  }

  function ReplayKids(s: Schema, vals: seq<Val>, k: nat): seq<Event>
    requires !s.IsLeaf() && !s.Bytes? && k <= |vals|
    requires s.Struct? || s.Table? ==> |vals| == |s.fields|
    requires forall i | k <= i < |vals| :: Typed(Kid(s, i), vals[i])
    decreases s, 0, |vals| - k
  {
    if k == |vals| then [] else Replay(Kid(s, k), vals[k]) + BetweenEv(s, k) + ReplayKids(s, vals, k + 1)
  }
}
