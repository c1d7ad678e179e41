/** Signatures in the fixed format that hosts expect, and derivation paths from the wire. */
module Keys {
  import opened Words
  import opened Wrappers

  datatype Error = WrongLength | WrongLengthForInstruction | WrongValues

  const OUT_SIZE := 65
  const SIG_SIZE := 100
  const MAX_PATH := 5

  // ---------- Big-endian numbers ----------

  function FromBytes(s: seq<u8>): nat {
    if s == [] then 0 else 0x100 * FromBytes(s[..|s| - 1]) + s[|s| - 1]
  }

  function ToBytes(n: nat, k: nat): (s: seq<u8>)
    ensures |s| == k
  {
    if k == 0 then [] else ToBytes(n / 0x100, k - 1) + [n % 0x100]
  }

  function Power(k: nat): (p: nat)
    ensures p > 0
  {
    if k == 0 then 1 else 0x100 * Power(k - 1)
  }

  function Zeros(k: nat): (s: seq<u8>)
    ensures |s| == k && forall i | 0 <= i < k :: s[i] == 0
  {
    seq(k, _ => 0)
  }

  lemma {:induction false} FromTo(n: nat, k: nat)
    requires n < Power(k)
    ensures FromBytes(ToBytes(n, k)) == n
  {
    if k > 0 {
      FromTo(n / 0x100, k - 1);
      assert ToBytes(n, k)[..k - 1] == ToBytes(n / 0x100, k - 1);
    }
  }

  lemma {:induction false} ToFrom(s: seq<u8>)
    ensures FromBytes(s) < Power(|s|) && ToBytes(FromBytes(s), |s|) == s
  {
    if s != [] {
      var t, b := s[..|s| - 1], s[|s| - 1];
      ToFrom(t);
      LowByte(b, FromBytes(t));
      assert s == t + [b];
    }
  }

  lemma {:induction false} ZerosInFront(k: nat, s: seq<u8>)
    ensures FromBytes(Zeros(k) + s) == FromBytes(s)
  {
    var t := Zeros(k) + s;
    if s != [] {
      ZerosInFront(k, s[..|s| - 1]);
      assert t[..|t| - 1] == Zeros(k) + s[..|s| - 1];
    } else if k > 0 {
      ZerosInFront(k - 1, s);
      assert t[..|t| - 1] == Zeros(k - 1) + s;
    } else {
      assert t == s;
    }
  }

  lemma {:induction false} FirstByteCounts(s: seq<u8>)
    requires s != [] && s[0] != 0
    ensures FromBytes(s) >= Power(|s| - 1)
  {
    if |s| > 1 {
      FirstByteCounts(s[..|s| - 1]);
    } else {
      assert s[..0] == [];
    }
  }

  lemma {:induction false} PowerGrows(j: nat, k: nat)
    requires j <= k
    ensures Power(j) <= Power(k)
  {
    if j < k { PowerGrows(j, k - 1); }
  }

  // ---------- DER integers ----------

  /** The two's complement number in these octets. */
  function Signed(c: seq<u8>): int
    requires c != []
  {
    if c[0] < 0x80 then FromBytes(c) else FromBytes(c) - Power(|c|)
  }

  /** `c` are the contents octets of the integer `n`: section 8.3 of X.690. */
  predicate IntegerContents(c: seq<u8>, n: int) {
    && c != [] && Signed(c) == n
    && (|c| > 1 ==> !(c[0] == 0 && c[1] < 0x80) && !(c[0] == 0xFF && c[1] >= 0x80))
  }

  /** The bytes of a number, as few as will do. */
  function Magnitude(n: nat): (s: seq<u8>)
    ensures s != [] && FromBytes(s) == n && (|s| > 1 ==> s[0] != 0)
  {
    if n < 0x100 then
      assert FromBytes([]) == 0;
      [n]
    else
      var s := Magnitude(n / 0x100);
      assert (s + [n % 0x100])[..|s|] == s;
      s + [n % 0x100]
  }

  function Contents(n: nat): (c: seq<u8>)
    ensures c != []
  {
    var s := Magnitude(n);
    if s[0] >= 0x80 then [0] + s else s
  }

  lemma {:induction false} MagnitudeOnly(s: seq<u8>)
    requires s != [] && (|s| > 1 ==> s[0] != 0)
    ensures s == Magnitude(FromBytes(s))
  {
    var t, b := s[..|s| - 1], s[|s| - 1];
    if |s| > 1 {
      FirstByteCounts(t);
      MagnitudeOnly(t);
      LowByte(b, FromBytes(t));
      assert s == t + [b];
    } else {
      assert s == [b] && t == [];
    }
  }

  lemma {:induction false} ZeroInFront(s: seq<u8>)
    ensures FromBytes([0] + s) == FromBytes(s)
  {
    ZerosInFront(1, s);
    assert Zeros(1) == [0];
  }

  /** Every natural number has exactly one encoding. */
  lemma {:induction false} OneEncoding(c: seq<u8>, n: nat)
    ensures IntegerContents(c, n) <==> c == Contents(n)
  {
    if IntegerContents(c, n) {
      ToFrom(c);
      if |c| > 1 && c[0] == 0 {
        assert c == [0] + c[1..];
        ZeroInFront(c[1..]);
        MagnitudeOnly(c[1..]);
      } else {
        MagnitudeOnly(c);
      }
    }
    ZeroInFront(Magnitude(n));
  }

  /** What is right-aligned in 32 bytes: the contents, or what follows a sign byte. */
  function Aligned(c: seq<u8>): (s: seq<u8>)
    requires 0 < |c| <= 33
    ensures |s| == 32
  {
    if |c| > 32 then c[1..] else Zeros(32 - |c|) + c
  }

  lemma {:induction false} AlignedIs(n: nat)
    requires n < Power(32)
    ensures |Contents(n)| <= 33 && Aligned(Contents(n)) == ToBytes(n, 32)
  {
    var s := Magnitude(n);
    if |s| > 32 {
      FirstByteCounts(s);
      PowerGrows(32, |s| - 1);
    }
    var a := Zeros(32 - |s|) + s;
    ZerosInFront(32 - |s|, s);
    ToFrom(a);
    AlignedContents(n);
  }

  lemma {:induction false} AlignedContents(n: nat)
    requires |Magnitude(n)| <= 32
    ensures |Contents(n)| <= 33 && Aligned(Contents(n)) == Zeros(32 - |Magnitude(n)|) + Magnitude(n)
  {
    hide Magnitude;
    var s := Magnitude(n);
    if s[0] >= 0x80 {
      if |s| == 32 {
        assert ([0] + s)[1..] == Zeros(0) + s;
      } else {
        assert Zeros(31 - |s|) + ([0] + s) == Zeros(32 - |s|) + s;
      }
    }
  }

  // ---------- Signatures ----------

  function Tagged(c: seq<u8>): seq<u8>
    requires |c| < 0x80
  {
    [2, |c|] + c
  }

  function Tag(cr: seq<u8>, cs: seq<u8>): seq<u8>
    requires |cr| <= 33 && |cs| <= 33
  {
    [0x30, |cr| + |cs| + 4] + Tagged(cr) + Tagged(cs)
  }

  /** An ECDSA signature: section 2.2.3 of RFC 3279. */
  function Der(r: nat, s: nat): seq<u8>
    requires r < Power(32) && s < Power(32)
  {
    AlignedIs(r);
    AlignedIs(s);
    Tag(Contents(r), Contents(s))
  }

  /** The recovery information, in one byte. */
  function Recovery(odd: bool, large: bool): u8 {
    (if odd then 1 else 0) + (if large then 2 else 0)
  }

  /** The fixed-width signature. */
  function Compact(r: nat, s: nat, odd: bool, large: bool): (b: seq<u8>)
    ensures |b| == OUT_SIZE
  {
    ToBytes(r, 32) + ToBytes(s, 32) + [Recovery(odd, large)]
  }

  /** The fixed-width signature still has both numbers, and says which point was used. */
  lemma {:induction false} CompactInjective(r: nat, s: nat, odd: bool, large: bool, r1: nat, s1: nat, odd1: bool, large1: bool)
    requires r < Power(32) && s < Power(32) && r1 < Power(32) && s1 < Power(32)
    requires Compact(r, s, odd, large) == Compact(r1, s1, odd1, large1)
    ensures r == r1 && s == s1 && odd == odd1 && large == large1
  {
    var b, b1 := Compact(r, s, odd, large), Compact(r1, s1, odd1, large1);
    assert b[..32] == ToBytes(r, 32) && b[32..64] == ToBytes(s, 32) && b[64] == Recovery(odd, large);
    assert b1[..32] == ToBytes(r1, 32) && b1[32..64] == ToBytes(s1, 32) && b1[64] == Recovery(odd1, large1);
    FromTo(r, 32);
    FromTo(s, 32);
    FromTo(r1, 32);
    FromTo(s1, 32);
    hide ToBytes, FromBytes, Power;
  }

  /** The curve library's answer: a DER signature at the start of its buffer. */
  predicate Holds(sig: seq<u8>, r: nat, s: nat) {
    |sig| == SIG_SIZE && 0 < r < Power(32) && 0 < s < Power(32) && Der(r, s) <= sig
  }

  /** The two integers are where their lengths say. */
  predicate Parts(sig: seq<u8>, cr: seq<u8>, cs: seq<u8>) {
    && |sig| == SIG_SIZE && 0 < |cr| <= 33 && 0 < |cs| <= 33
    && sig[3] == |cr| && sig[4..4 + |cr|] == cr
    && sig[3 + |cr| + 2] == |cs| && sig[4 + |cr| + 2..4 + |cr| + 2 + |cs|] == cs
  }

  lemma {:induction false} DerParts(sig: seq<u8>, r: nat, s: nat)
    requires Holds(sig, r, s)
    ensures Parts(sig, Contents(r), Contents(s))
  {
    ContentsShort(r);
    ContentsShort(s);
    hide Contents, Power, Tag, Parts;
    TwoTagged(sig, Contents(r), Contents(s));
  }

  lemma {:induction false} ContentsShort(n: nat)
    requires n < Power(32)
    ensures 0 < |Contents(n)| <= 33
  {
    hide Power, Contents;
    AlignedIs(n);
  }

  lemma {:induction false} TwoTagged(sig: seq<u8>, cr: seq<u8>, cs: seq<u8>)
    requires 0 < |cr| <= 33 && 0 < |cs| <= 33 && |sig| == SIG_SIZE && Tag(cr, cs) <= sig
    ensures Parts(sig, cr, cs)
  {
    var front := [0x30, |cr| + |cs| + 4, 2, |cr|];
    var middle := [2, |cs|];
    var d := front + cr + middle + cs;
    assert Tag(cr, cs) == d;
    var i, j := 4 + |cr|, 6 + |cr|;
    assert sig[..j + |cs|] == d;
    assert sig[3] == d[3] && sig[j - 1] == d[j - 1];
    assert sig[4..i] == d[4..i] == cr;
    assert sig[j..j + |cs|] == d[j..] == cs;
  }

  /** Copies one integer of the signature, without a sign byte, to end at `end`. */
  method PlaceInteger(out: array<u8>, end: nat, sig: array<u8>, at: nat, size: nat, ghost c: seq<u8>)
    requires 32 <= end <= out.Length && out != sig
    requires 0 < size <= 33 && at + size <= sig.Length && sig[at..at + size] == c
    requires out[end - 32..end] == Zeros(32)
    modifies out
    ensures out[end - 32..end] == Aligned(c)
    ensures out[..end - 32] == old(out[..end - 32]) && out[end..] == old(out[end..])
  {
    var width := if size > 32 then 32 else size;
    var start := at + if size > 32 then 1 else 0;
    var i := 0;
    while i < width
      invariant i <= width
      invariant out[..end - width] == old(out[..end - width]) && out[end..] == old(out[end..])
      invariant out[end - width..end - width + i] == sig[start..start + i]
    {
      out[end - width + i] := sig[start + i];
      i := i + 1;
    }
    assert out[end - width..end] == sig[start..start + width];
    assert sig[start..start + width] == c[start - at..];
    AlignedAt(out[..], old(out[..]), end, width);
  }

  /** What was written stands behind the zeros that were there. */
  lemma {:induction false} AlignedAt(out: seq<u8>, was: seq<u8>, end: nat, width: nat)
    requires width <= 32 <= end <= |out| == |was| && was[end - 32..end] == Zeros(32) && out[..end - width] == was[..end - width]
    ensures out[end - 32..end] == Zeros(32 - width) + out[end - width..end]
    ensures out[..end - 32] == was[..end - 32]
  {
    assert out[..end - 32] == out[..end - width][..end - 32] && was[..end - 32] == was[..end - width][..end - 32];
    assert out[end - 32..end - width] == was[end - 32..end - width] by {
      assert out[end - 32..end - width] == out[..end - width][end - 32..] && was[end - 32..end - width] == was[..end - width][end - 32..];
    }
    assert was[end - 32..end - width] == was[end - 32..end][..32 - width] == Zeros(32)[..32 - width] == Zeros(32 - width);
    assert out[end - 32..end] == out[end - 32..end - width] + out[end - width..end];
  }

  /** `sign`, from the DER signature in `sig` on. */
  method Sign(out: array<u8>, sig: array<u8>, odd: bool, large: bool, ghost r: nat, ghost s: nat) returns (res: Result<nat, Error>)
    requires out != sig && Holds(sig[..], r, s)
    modifies out
    ensures out.Length < OUT_SIZE ==> res == Err(WrongLength) && out[..] == old(out[..])
    ensures out.Length >= OUT_SIZE ==>
              && res == Ok(OUT_SIZE) && out[OUT_SIZE..] == old(out[OUT_SIZE..])
              && FromBytes(out[..32]) == r && FromBytes(out[32..64]) == s
              && out[64] < 4 && (out[64] % 2 == 1 <==> odd) && (out[64] / 2 % 2 == 1 <==> large)
              && out[..OUT_SIZE] == Compact(r, s, odd, large)
  {
    if out.Length < OUT_SIZE {
      return Err(WrongLength);
    }
    DerParts(sig[..], r, s);
    AlignedIs(r);
    AlignedIs(s);
    Numbers(r, s);
    hide Parts, Holds, Der, Contents, Aligned, ToBytes, FromBytes, Power, Compact, Recovery;
    PlaceBoth(out, sig, Contents(r), Contents(s));
    PutRecovery(out, odd, large);
    assert out[..64] == ToBytes(r, 32) + ToBytes(s, 32);
    assert out[..32] == ToBytes(r, 32) && out[32..64] == ToBytes(s, 32);
    CompactIs(out[..], r, s, odd, large);
    return Ok(OUT_SIZE);
  }

  lemma {:induction false} Numbers(r: nat, s: nat)
    requires r < Power(32) && s < Power(32)
    ensures FromBytes(ToBytes(r, 32)) == r && FromBytes(ToBytes(s, 32)) == s
  {
    hide FromBytes, ToBytes, Power;
    FromTo(r, 32);
    FromTo(s, 32);
  }

  /** The numbers of the DER signature, each right-aligned in its half. */
  method PlaceBoth(out: array<u8>, sig: array<u8>, ghost cr: seq<u8>, ghost cs: seq<u8>)
    requires out != sig && out.Length >= OUT_SIZE && Parts(sig[..], cr, cs)
    modifies out
    ensures out[..64] == Aligned(cr) + Aligned(cs) && out[OUT_SIZE..] == old(out[OUT_SIZE..])
  {
    hide Aligned;
    Clear(out);
    var rSize: nat := sig[3];
    var sSize: nat := sig[3 + rSize + 2];
    SliceOfAll(sig, 4, 4 + rSize);
    SliceOfAll(sig, 4 + rSize + 2, 4 + rSize + 2 + sSize);
    PlaceInteger(out, 32, sig, 4, rSize, cr);
    SliceOfRest(out[..], 32, 64, OUT_SIZE);
    PlaceInteger(out, 64, sig, 4 + rSize + 2, sSize, cs);
    SliceOfRest(out[..], 32, 64, OUT_SIZE);
    assert out[..64] == out[..32] + out[32..64];
  }

  lemma {:induction false} SliceOfAll(a: array<u8>, lo: nat, hi: nat)
    requires lo <= hi <= a.Length
    ensures a[..][lo..hi] == a[lo..hi]
  {
  }

  lemma {:induction false} SliceOfRest(s: seq<u8>, lo: nat, hi: nat, end: nat)
    requires lo <= hi <= end <= |s|
    ensures s[lo..][..hi - lo] == s[lo..hi] && s[lo..][end - lo..] == s[end..] && s[hi..][end - hi..] == s[end..]
  {
  }

  lemma {:induction false} CompactIs(out: seq<u8>, r: nat, s: nat, odd: bool, large: bool)
    requires |out| >= OUT_SIZE && out[..64] == ToBytes(r, 32) + ToBytes(s, 32) && out[64] == Recovery(odd, large)
    ensures out[..OUT_SIZE] == Compact(r, s, odd, large)
  {
    assert out[..OUT_SIZE] == out[..64] + [out[64]];
  }

  method PutRecovery(out: array<u8>, odd: bool, large: bool)
    requires out.Length >= OUT_SIZE
    modifies out
    ensures out[..64] == old(out[..64]) && out[OUT_SIZE..] == old(out[OUT_SIZE..]) && out[64] == Recovery(odd, large)
    ensures out[64] < 4 && (out[64] % 2 == 1 <==> odd) && (out[64] / 2 % 2 == 1 <==> large)
  {
    out[64] := 0;
    if odd { out[64] := out[64] + 1; }
    if large { out[64] := out[64] + 2; }
  }

  method Clear(out: array<u8>)
    requires out.Length >= OUT_SIZE
    modifies out
    ensures out[..32] == Zeros(32) && out[32..][..32] == Zeros(32)
    ensures out[OUT_SIZE..] == old(out[OUT_SIZE..])
  {
    var i := 0;
    while i < OUT_SIZE
      invariant i <= OUT_SIZE
      invariant forall k | 0 <= k < i :: out[k] == 0
      invariant out[OUT_SIZE..] == old(out[OUT_SIZE..])
    {
      out[i] := 0;
      i := i + 1;
    }
  }

  // ---------- Paths ----------

  /** A derivation path on the wire: how many components, then each of them. */
  function PathBytes(path: seq<u32>): (b: seq<u8>)
    requires |path| < 0x100
  {
    [|path|] + Components(path)
  }

  function Components(path: seq<u32>): (b: seq<u8>)
    ensures |b| == 4 * |path|
  {
    if path == [] then [] else Components(path[..|path| - 1]) + ToBytes(path[|path| - 1], 4)
  }

  lemma {:induction false} ComponentsInjective(p: seq<u32>, q: seq<u32>)
    requires |p| == |q| && Components(p) == Components(q)
    ensures p == q
  {
    if p != [] {
      var n := |p| - 1;
      LastComponent(p);
      LastComponent(q);
      hide ToBytes, FromBytes, Power, Components;
      ComponentsInjective(p[..n], q[..n]);
      PowerFour();
      FromTo(p[n], 4);
      FromTo(q[n], 4);
      assert p == p[..n] + [p[n]] && q == q[..n] + [q[n]];
    }
  }

  lemma {:induction false} LastComponent(p: seq<u32>)
    requires p != []
    ensures var n := |p| - 1; Components(p)[..4 * n] == Components(p[..n]) && Components(p)[4 * n..] == ToBytes(p[n], 4)
  {
    hide ToBytes;
  }

  lemma {:induction false} PowerFour()
    ensures Power(4) == U32_SIZE
  {
    assert Power(2) == 0x1_0000;
  }

  /** No path's bytes begin with those of another. */
  lemma {:induction false} PathsApart(p: seq<u32>, q: seq<u32>, b: seq<u8>)
    requires |p| < 0x100 && |q| < 0x100 && PathBytes(p) <= b && PathBytes(q) <= b
    ensures p == q
  {
    assert b[0] == PathBytes(p)[0] && b[0] == PathBytes(q)[0];
    var n := |p|;
    assert b[..1 + 4 * n][1..] == Components(p) && b[..1 + 4 * n][1..] == Components(q);
    ComponentsInjective(p, q);
  }

  lemma {:induction false} PathStarts(p: seq<u32>, b: seq<u8>)
    requires |p| < 0x100
    ensures PathBytes(p) <= b ==> |b| >= 1 + 4 * |p| && b[0] == |p|
  {
    if PathBytes(p) <= b { assert b[0] == PathBytes(p)[0]; }
  }

  class Path {
    var length: u8
    const components: array<u32>

    constructor ()
      ensures components.Length == MAX_PATH && fresh(components)
    {
      length := 0;
      components := new u32[MAX_PATH];
    }

    function Value(): seq<u32>
      reads this, components
      requires length <= components.Length
    {
      components[..length]
    }

    /** `read_bip32_path`: reads the one path the bytes begin with, if it has one to five components. */
    method Read(input: seq<u8>) returns (res: Result<nat, Error>)
      requires components.Length == MAX_PATH
      modifies this, components
      ensures res.Ok? ==>
                && 0 < length <= MAX_PATH && PathBytes(Value()) <= input && res.value == |PathBytes(Value())|
      ensures res.Err? ==> forall p: seq<u32> | 0 < |p| <= MAX_PATH :: !(PathBytes(p) <= input)
      ensures res.Err? ==> res.error != WrongLength
      ensures input != [] ==> length == input[0]
      ensures res == Err(WrongLengthForInstruction) <==> input == [] || |input| < 1 + 4 * (input[0] as int)
    {
      if |input| < 1 {
        return Err(WrongLengthForInstruction);
      }
      var ix := 1;
      length := input[0];
      if |input| - ix < 4 * length {
        forall p: seq<u32> | 0 < |p| <= MAX_PATH ensures !(PathBytes(p) <= input) {
          PathStarts(p, input);
        }
        return Err(WrongLengthForInstruction);
      }
      if length == 0 || length > MAX_PATH {
        forall p: seq<u32> | 0 < |p| <= MAX_PATH ensures !(PathBytes(p) <= input) {
          PathStarts(p, input);
        }
        return Err(WrongValues);
      }
      var i := 0;
      while i < length
        invariant i <= length == input[0] && ix == 1 + 4 * i
        invariant Components(components[..i]) == input[1..ix]
      {
        components[i] := BigEndian(input[ix..ix + 4]);
        assert components[..i + 1][..i] == components[..i];
        assert input[1..ix + 4] == input[1..ix] + input[ix..ix + 4];
        ix := ix + 4;
        i := i + 1;
      }
      assert input[..ix] == [input[0]] + input[1..ix];
      res := Ok(ix);
    }
  }

  function BigEndian(b: seq<u8>): (n: u32)
    requires |b| == 4
    ensures ToBytes(n, 4) == b
  {
    ToFrom(b);
    PowerFour();
    FromBytes(b)
  }
}
