/** The reader as a one-byte-at-a-time automaton.

    This is the simple form of the resumable readers: it consumes one byte, then runs on as far
    as it can without another byte. It fixes what a reader does on every byte stream, however
    malformed, without any notion of a chunk. */
module Automaton {
  import opened Words
  import opened Schema

  const NUM_MAX: u32 := 0xFFFF_FFFF

  datatype Rv = INCOMPLETE | COMPLETE | REJECT

  /** The state of a reader: a buffer being filled, a header word being read, a byte string
      being passed through, or a child reader at work. */
  datatype St =
    | Buf(buf: seq<u8>)
    | Hdr(nums: seq<u32>, seen: nat, part: seq<u8>)
    | Raw(len: u32, got: nat)
    | Kids(nums: seq<u32>, count: nat, k: nat, child: St)

  datatype Out = Out(rv: Rv, st: St, ev: seq<Event>)
  datatype Res = Res(rv: Rv, st: St, ev: seq<Event>, used: nat)

  function Init(s: Schema): St {
    if s.IsLeaf() then Buf([]) else Hdr([], 0, [])
  }

  /** The `start` callbacks fired by initialising a reader: structs and options also
      initialise their first child. */
  function InitEv(s: Schema): seq<Event> {
    match s
    case Byte(_) => []
    case Array(_, _) => []
    case Struct(t, fields) => [Start(t)] + (if fields == [] then [] else InitEv(fields[0]))
    case Option(t, item) => [Start(t)] + InitEv(item)
    case _ => [Start(s.tag)]
  }

  /** What the header words read so far say. */
  datatype Head = More | Bad | Empty | Ready(count: nat)

  /** Items in a dynvec whose first offset is `first`; the subtraction wraps. */
  function ItemCount(first: u32): nat {
    Sub32(first / 4, 1)
  }

  /** A vector of `len` items, `body` bytes in all, is refused when its size overflows 32 bits,
      differs from the expected size, or exceeds what the `size` callback accepts. */
  function VecHead(len: u32, body: nat, size: u32, limit: nat): Head {
    if body + 4 >= U32_SIZE || (size != NUM_MAX && body + 4 != size) || body > limit
    then Bad else Ready(len)
  }

  function HeadOf(s: Schema, size: u32, nums: seq<u32>, seen: nat): Head {
    match s
    case Struct(_, fields) =>
      if size != FixedSize(s) && size != NUM_MAX then Bad else Ready(|fields|)
    case Option(_, _) =>
      if size == 0 then Empty else Ready(1)
    case Table(_, fields) =>
      if nums == [] then More
      else if size != NUM_MAX && nums[0] != size then Bad
      else if |nums| < 1 + |fields| then More
      else Ready(|fields|)
    case Bytes(_) =>
      if nums == [] then More else VecHead(nums[0], nums[0], size, U32_SIZE)
    case FixVec(_, item, limit) =>
      if nums == [] then More else VecHead(nums[0], Times(nums[0], FixedSize(item)), size, limit)
    case DynVec(_, _) =>
      if nums == [] then More
      else if nums[0] == 4 then Empty
      else if size != NUM_MAX && size != nums[0] then Bad
      else if |nums| < 2 || seen < 1 + ItemCount(nums[1]) then More
      else Ready(ItemCount(nums[1]))
    case _ => Bad
  }

  /** Of a dynvec's header only the total size and the first offset are kept. */
  function Retain(s: Schema, nums: seq<u32>, w: u32): seq<u32> {
    if s.DynVec? && |nums| >= 2 then nums else nums + [w]
  }

  /** Does a state with children belong to this schema? */
  predicate Fits(s: Schema, nums: seq<u32>, count: nat) {
    match s
    case Struct(_, fields) => count == |fields|
    case Table(_, fields) => count == |fields| && |nums| >= 1 + |fields|
    case Option(_, _) => count == 1
    case FixVec(_, _, _) => true
    case DynVec(_, _) => true
    case _ => false
  }

  function ChildOf(s: Schema, nums: seq<u32>, count: nat, k: nat): (c: Schema)
    requires Fits(s, nums, count) && k < count
    ensures c < s
  {
    if s.Struct? || s.Table? then s.fields[k] else s.item
  }

  function ChildSize(s: Schema, size: u32, nums: seq<u32>, count: nat, k: nat): u32
    requires Fits(s, nums, count) && k < count
  {
    if s.Table? then Sub32(if k + 1 < count then nums[k + 2] else nums[0], nums[k + 1])
    else if s.DynVec? then NUM_MAX
    else if s.Option? then size
    else Low32(FixedSize(ChildOf(s, nums, count, k)))
  }

  /** Callbacks fired when the header is complete. */
  function EnterEv(s: Schema, nums: seq<u32>, count: nat): seq<Event> {
    match s
    case Table(t, fields) => (if fields == [] then [] else InitEv(fields[0])) + [Offsets(t, nums)]
    case FixVec(t, item, _) =>
      [Size(t, Low32(Times(count, FixedSize(item)) + 4))] + InitEv(item) + [Index(t, 0)]
    case DynVec(t, item) => InitEv(item) + [Length(t, Low32(count)), Index(t, 0)]
    case Bytes(t) => [Size(t, Low32(count + 4))]
    case _ => []
  }

  /** Callbacks fired between child `k` and the next one. A vector initialises one item more
      than it reads, and reports one index more. */
  function BetweenEv(s: Schema, k: nat): seq<Event> {
    match s
    case Struct(_, fields) => if k + 1 < |fields| then InitEv(fields[k + 1]) else []
    case Table(_, fields) => if k + 1 < |fields| then InitEv(fields[k + 1]) else []
    case FixVec(t, item, _) => InitEv(item) + [Index(t, k + 1)]
    case DynVec(t, item) => InitEv(item) + [Index(t, k + 1)]
    case _ => []
  }

  function FirstKid(s: Schema, nums: seq<u32>, count: nat, k: nat): St {
    if Fits(s, nums, count) && k < count then Init(ChildOf(s, nums, count, k)) else Buf([])
  }

  /** A reader that is not a leaf passes the bytes of this call to `chunk`, then, if it is
      complete, fires `end`. */
  function Wrap(s: Schema, o: Out, bs: seq<u8>): Out {
    if s.IsLeaf() then o
    else o.(ev := o.ev + [Chunk(s.tag, bs)] + (if o.rv == COMPLETE then [End(s.tag)] else []))
  }

  /** Runs the reader as far as it gets without consuming a byte. */
  function Poke(s: Schema, size: u32, st: St): Out
    decreases s, 2, 0
  {
    Wrap(s, PokeIn(s, size, st), [])
  }

  function PokeIn(s: Schema, size: u32, st: St): Out
    decreases s, if st.Hdr? then 1 else 0, if st.Kids? then st.count - st.k else 0, 1
  {
    match st
    case Buf(_) => Out(if s.Byte? && size != 1 then REJECT else INCOMPLETE, st, [])
    case Hdr(nums, seen, _) => (
      match HeadOf(s, size, nums, seen)
      case More => Out(INCOMPLETE, st, [])
      case Bad => Out(REJECT, st, [])
      case Empty => Out(COMPLETE, st, [])
      case Ready(count) =>
        var o := if s.Bytes? then PokeIn(s, size, Raw(nums[0], 0))
                 else PokeIn(s, size, Kids(nums, count, 0, FirstKid(s, nums, count, 0)));
        o.(ev := EnterEv(s, nums, count) + o.ev)
    )
    case Raw(len, got) => Out(if got < len then INCOMPLETE else COMPLETE, st, [])
    case Kids(nums, count, k, child) =>
      if !Fits(s, nums, count) then Out(REJECT, st, [])
      else if k >= count then Out(COMPLETE, st, [])
      else
        var c := Poke(ChildOf(s, nums, count, k), ChildSize(s, size, nums, count, k), child);
        After(s, size, nums, count, k, c)
  }

  /** Carries on after a child reader returned `c`. */
  function After(s: Schema, size: u32, nums: seq<u32>, count: nat, k: nat, c: Out): Out
    requires Fits(s, nums, count) && k < count
    decreases s, 0, count - k, 0
  {
    match c.rv
    case REJECT => Out(REJECT, Kids(nums, count, k, c.st), c.ev)
    case INCOMPLETE => Out(INCOMPLETE, Kids(nums, count, k, c.st), c.ev)
    case COMPLETE =>
      var o := PokeIn(s, size, Kids(nums, count, k + 1, FirstKid(s, nums, count, k + 1)));
      o.(ev := c.ev + BetweenEv(s, k) + o.ev)
  }

  /** Consumes one byte. */
  function Step(s: Schema, size: u32, st: St, b: u8): Out
    decreases s, 4
  {
    Wrap(s, StepIn(s, size, st, b), [b])
  }

  function StepIn(s: Schema, size: u32, st: St, b: u8): Out
    decreases s, 3
  {
    match st
    case Buf(buf) =>
      if |buf| + 1 < FixedSize(s) then Out(INCOMPLETE, Buf(buf + [b]), [])
      else Out(COMPLETE, Buf(buf + [b]), [Leaf(s.tag, buf + [b])])
    case Hdr(nums, seen, part) =>
      if |part| != 3 then Out(INCOMPLETE, Hdr(nums, seen, part + [b]), [])
      else PokeIn(s, size, Hdr(Retain(s, nums, Unpack(part + [b])), seen + 1, []))
    case Raw(len, got) =>
      Out(if got + 1 < len then INCOMPLETE else COMPLETE, Raw(len, got + 1), [Body(s.tag, [b])])
    case Kids(nums, count, k, child) =>
      if !Fits(s, nums, count) || k >= count then Out(REJECT, st, [])
      else
        var c := Step(ChildOf(s, nums, count, k), ChildSize(s, size, nums, count, k), child, b);
        After(s, size, nums, count, k, c)
  }

  /** Consumes bytes until the reader returns a verdict or the bytes run out. */
  function Fold(s: Schema, size: u32, st: St, bs: seq<u8>): (r: Res)
    ensures r.used <= |bs|
    ensures r.rv == INCOMPLETE ==> r.used == |bs|
    decreases |bs|
  {
    if bs == [] then Res(INCOMPLETE, st, [], 0)
    else
      var o := Step(s, size, st, bs[0]);
      if o.rv != INCOMPLETE then Res(o.rv, o.st, o.ev, 1)
      else
        var r := Fold(s, size, o.st, bs[1..]);
        Res(r.rv, r.st, o.ev + r.ev, 1 + r.used)
  }

  /** One call of the reader on the bytes `bs`. */
  function Go(s: Schema, size: u32, st: St, bs: seq<u8>): (r: Res)
    ensures r.used <= |bs|
    ensures r.rv == INCOMPLETE ==> r.used == |bs|
  {
    var p := Poke(s, size, st);
    if p.rv != INCOMPLETE then Res(p.rv, p.st, p.ev, 0)
    else
      var r := Fold(s, size, p.st, bs);
      Res(r.rv, r.st, p.ev + r.ev, r.used)
  }

  /** A result reached after `used` bytes and the callbacks `ev`. */
  function Then(ev: seq<Event>, used: nat, r: Res): Res {
    Res(r.rv, r.st, ev + r.ev, used + r.used)
  }
}
