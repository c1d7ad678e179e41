/** The addresses shown to the user: a payload, regrouped into symbols and encoded. */
module Address {
  import opened Words
  import opened Ledger
  import R = Regroup
  import B = Bech32
  import T = Bech32Text
  import C = Bech32Coder
  import W = Wrappers

  const FORMAT_SHORT: u8 := 0x01
  const FORMAT_FULL_TYPE: u8 := 0x04
  const INDEX_SIGHASH: u8 := 0x00
  const INDEX_MULTISIG: u8 := 0x01

  /** What is displayed: the lock of a single key, of which the device shows the hash, or a multisig
      lock, of which it also shows the period, if there is one. */
  datatype Lock = Sighash(hash: Hash20) | Multisig(arg: LockArg)

  function Bytes(xs: seq<u8>): (ns: seq<nat>)
    ensures |ns| == |xs| && forall i | 0 <= i < |xs| :: ns[i] == xs[i]
  {
    seq(|xs|, i requires 0 <= i < |xs| => xs[i])
  }

  predicate HasPeriod(arg: LockArg) {
    exists i | 20 <= i < 28 :: arg[i] != 0
  }

  /** The payload that `lock_arg_to_sighash_address` and `lock_arg_to_multisig_address` fill in. */
  function Payload(lock: Lock): seq<u8> {
    match lock
    case Sighash(hash) => [FORMAT_SHORT, INDEX_SIGHASH] + hash
    case Multisig(arg) =>
      if HasPeriod(arg) then [FORMAT_FULL_TYPE] + MultisigLock() + arg else [FORMAT_SHORT, INDEX_MULTISIG] + arg[..20]
  }

  /** A symbol as a character value. */
  function Symbol(x: nat): T.byte {
    if x < 32 then x as bv8 else 0
  }

  function SymbolsOf(xs: seq<nat>): (ys: seq<T.byte>)
    ensures |ys| == |xs| && forall i | 0 <= i < |xs| :: ys[i] == Symbol(xs[i])
  {
    seq(|xs|, i requires 0 <= i < |xs| => Symbol(xs[i]))
  }

  /** "ckb" or "ckt". */
  function Network(mainnet: bool): seq<T.byte> {
    if mainnet then [99, 107, 98] else [99, 107, 116]
  }

  /** `render_pkh`, without its final zero. */
  function Rendered(mainnet: bool, lock: Lock): seq<T.byte> {
    T.Encoded(Network(mainnet), SymbolsOf(R.ToSymbols(Bytes(Payload(lock)))))
  }

  // ---------- Injectivity ----------

  lemma {:induction false} SymbolIs(x: nat)
    requires x < 32
    ensures Symbol(x) < 32 && (Symbol(x) as int) == x
  {
  }

  lemma {:induction false} SymbolsInjective(xs: seq<nat>, ys: seq<nat>)
    requires |xs| == |ys| && (forall i | 0 <= i < |xs| :: xs[i] < 32 && ys[i] < 32) && SymbolsOf(xs) == SymbolsOf(ys)
    ensures xs == ys
  {
    hide Symbol;
    forall i | 0 <= i < |xs| ensures xs[i] == ys[i] {
      assert SymbolsOf(xs)[i] == SymbolsOf(ys)[i];
      SymbolIs(xs[i]);
      SymbolIs(ys[i]);
    }
  }

  lemma {:induction false} NumBound(bs: seq<bool>)
    requires |bs| == 5
    ensures R.Num(bs) < 32
  {
    var a, b, c, d := bs[..4], bs[..3], bs[..2], bs[..1];
    assert a[..3] == b && b[..2] == c && c[..1] == d && d[..0] == [];
    assert R.Num([]) == 0;
    assert R.Num(d) <= 1;
    assert R.Num(c) <= 3;
    assert R.Num(b) <= 7;
    assert R.Num(a) <= 15;
  }

  lemma {:induction false} SymbolsBound(xs: seq<nat>)
    requires R.Fits(xs, R.SYMBOL)
    ensures forall i | 0 <= i < |xs| :: xs[i] < 32
  {
    forall i | 0 <= i < |xs| ensures xs[i] < 32 {
      NumBound(R.BitsOf(xs[i], R.SYMBOL));
      assert R.Num(R.BitsOf(xs[i], R.SYMBOL)) == xs[i];
    }
    hide R.Num, R.BitsOf;
  }

  /** A byte fits eight bits. */
  lemma {:induction false} ByteBits(x: u8)
    ensures R.Num(R.BitsOf(x, 8)) == x
  {
    var n := x as nat;
    assert x == n;
    ByteBitsFrom(n, 8, 256);
  }

  lemma {:induction false} ByteBitsFrom(v: nat, k: nat, bound: nat)
    requires v < bound && bound == R.Shl(1, k)
    ensures R.Num(R.BitsOf(v, k)) == v
    decreases k
  {
    if k > 0 {
      var bs := R.BitsOf(v, k);
      assert bs[..k - 1] == R.BitsOf(v / 2, k - 1);
      ByteBitsFrom(v / 2, k - 1, R.Shl(1, k - 1));
    }
  }

  lemma {:induction false} BytesFit(xs: seq<u8>)
    ensures R.Fits(Bytes(xs), R.BYTE)
  {
    forall i | 0 <= i < |xs| ensures R.Num(R.BitsOf(Bytes(xs)[i], R.BYTE)) == Bytes(xs)[i] { ByteBits(xs[i]); }
    hide R.Num, R.BitsOf;
  }

  lemma {:induction false} ToSymbolsInjective(xs: seq<u8>, ys: seq<u8>)
    requires R.ToSymbols(Bytes(xs)) == R.ToSymbols(Bytes(ys))
    ensures xs == ys
  {
    var max := |xs| + |ys|;
    BytesFit(xs);
    BytesFit(ys);
    hide R.ToSymbols, R.Fits, R.Convert;
    R.BytesBack(max, Bytes(xs));
    R.BytesBack(max, Bytes(ys));
    assert Bytes(xs) == Bytes(ys);
    forall i | 0 <= i < |xs| ensures xs[i] == ys[i] { assert Bytes(xs)[i] == Bytes(ys)[i]; }
  }

  lemma {:induction false} EncodedInjective(hrp: seq<T.byte>, a: seq<T.byte>, b: seq<T.byte>)
    requires B.Symbols(a) && B.Symbols(b) && T.Encoded(hrp, a) == T.Encoded(hrp, b)
    ensures a == b
  {
    T.EncodedIs(hrp, a);
    T.EncodedIs(hrp, b);
    var pa, pb := T.Payload(hrp, a), T.Payload(hrp, b);
    T.PayloadIsOne(hrp, a);
    T.PayloadIsOne(hrp, b);
    T.CharsValues(pa);
    T.CharsValues(pb);
    assert T.Encoded(hrp, a)[|hrp| + 1..] == T.Chars(pa) && T.Encoded(hrp, b)[|hrp| + 1..] == T.Chars(pb);
    assert pa == pb && |a| == |b|;
    assert pa[..|a|] == a && pb[..|b|] == b;
    hide *;
  }

  lemma {:induction false} RenderedSymbols(lock: Lock)
    ensures B.Symbols(SymbolsOf(R.ToSymbols(Bytes(Payload(lock)))))
    ensures forall i | 0 <= i < |R.ToSymbols(Bytes(Payload(lock)))| :: R.ToSymbols(Bytes(Payload(lock)))[i] < 32
  {
    var xs := R.ToSymbols(Bytes(Payload(lock)));
    R.ToSymbolsBits(Bytes(Payload(lock)));
    SymbolsBound(xs);
    hide Symbol, R.ToSymbols, Payload;
    forall i | 0 <= i < |xs| ensures Symbol(xs[i]) < 32 { SymbolIs(xs[i]); }
  }

  /** The locks whose displays coincide: the same kind, the same key hash, and for multisig the same
      period. */
  lemma {:induction false} PayloadInjective(a: Lock, b: Lock)
    requires Payload(a) == Payload(b)
    ensures a == b
  {
    hide MultisigLock, HasPeriod;
    match a {
      case Sighash(hash) => SighashPayload(a, b);
      case Multisig(arg) =>
        if b.Sighash? { SighashPayload(b, a); } else { MultisigPayload(arg, b.arg); }
    }
  }

  lemma {:induction false} SighashPayload(a: Lock, b: Lock)
    requires a.Sighash? && Payload(a) == Payload(b)
    ensures a == b
  {
    PayloadHead(b);
    PayloadHead(a);
    hide Payload, HasPeriod;
  }

  lemma {:induction false} PayloadHead(lock: Lock)
    ensures var p := Payload(lock);
            && |p| >= 22
            && match lock
               case Sighash(hash) => p[0] == FORMAT_SHORT && p[1] == INDEX_SIGHASH && p[2..] == hash
               case Multisig(arg) => if HasPeriod(arg) then p[0] == FORMAT_FULL_TYPE else p[0] == FORMAT_SHORT && p[1] == INDEX_MULTISIG
  {
    hide MultisigLock, HasPeriod;
  }

  lemma {:induction false} MultisigPayload(a: LockArg, b: LockArg)
    requires Payload(Multisig(a)) == Payload(Multisig(b))
    ensures a == b
  {
    var p, q := Payload(Multisig(a)), Payload(Multisig(b));
    assert |MultisigLock()| == 32;
    hide MultisigLock;
    assert p[0] == if HasPeriod(a) then FORMAT_FULL_TYPE else FORMAT_SHORT;
    assert q[0] == if HasPeriod(b) then FORMAT_FULL_TYPE else FORMAT_SHORT;
    if HasPeriod(a) {
      assert p[33..] == a && q[33..] == b;
    } else {
      assert p[2..] == a[..20] && q[2..] == b[..20];
      assert forall i | 20 <= i < 28 :: a[i] == 0 && b[i] == 0;
      assert a == a[..20] + a[20..] && b == b[..20] + b[20..];
      assert a[20..] == b[20..];
    }
  }

  /** Equal addresses on one network show the same lock. */
  lemma {:induction false} AddressInjective(mainnet: bool, a: Lock, b: Lock)
    requires Rendered(mainnet, a) == Rendered(mainnet, b)
    ensures a == b
  {
    hide *;
    RenderedIs(mainnet, a);
    RenderedIs(mainnet, b);
    RenderedSymbols(a);
    RenderedSymbols(b);
    var xs, ys := R.ToSymbols(Bytes(Payload(a))), R.ToSymbols(Bytes(Payload(b)));
    EncodedInjective(Network(mainnet), SymbolsOf(xs), SymbolsOf(ys));
    SymbolsInjective(xs, ys);
    ToSymbolsInjective(Payload(a), Payload(b));
    PayloadInjective(a, b);
  }

  lemma {:induction false} RenderedIs(mainnet: bool, lock: Lock)
    ensures Rendered(mainnet, lock) == T.Encoded(Network(mainnet), SymbolsOf(R.ToSymbols(Bytes(Payload(lock)))))
  {
  }

  // ---------- Lengths ----------

  lemma {:induction false} PayloadLength(lock: Lock)
    ensures |Payload(lock)| == if lock.Multisig? && HasPeriod(lock.arg) then 61 else 22
  {
  }

  /** Rendering succeeds whenever the buffer has room for the address. The longest address has exactly
      the 108 characters the encoder allows. */
  lemma {:induction false} AlwaysRenders(mainnet: bool, lock: Lock, outLen: nat)
    ensures var data := SymbolsOf(R.ToSymbols(Bytes(Payload(lock)))); T.Encodable(outLen, Network(mainnet), data) <==> |Rendered(mainnet, lock)| <= outLen
    ensures |Rendered(mainnet, lock)| == if lock.Multisig? && HasPeriod(lock.arg) then T.ENCODE_MAX else 46
  {
    PayloadLength(lock);
    R.SymbolCount(Bytes(Payload(lock)));
    RenderedSymbols(lock);
    var data := SymbolsOf(R.ToSymbols(Bytes(Payload(lock))));
    T.EncodedIs(Network(mainnet), data);
    NetworkIs(mainnet);
    hide R.ToSymbols, T.Encoded, Payload, HasPeriod, B.Symbols, Network, SymbolsOf, Bytes;
  }

  lemma {:induction false} NetworkIs(mainnet: bool)
    ensures |Network(mainnet)| == 3 && T.Printable(Network(mainnet))
    ensures forall i | 0 <= i < 3 :: !T.IsUpper(Network(mainnet)[i]) && Network(mainnet)[i] >= 32
  {
  }

  /** The decoder accepts the short addresses, and gives back their payload, but not the long ones. */
  lemma {:induction false} DecodesIffShort(mainnet: bool, lock: Lock, dataMax: nat)
    requires dataMax >= 104
    ensures var data := SymbolsOf(R.ToSymbols(Bytes(Payload(lock))));
            T.Decode(dataMax, Rendered(mainnet, lock)) == W.Some(T.Decoded(Network(mainnet), data))
            <==> !(lock.Multisig? && HasPeriod(lock.arg))
  {
    var data := SymbolsOf(R.ToSymbols(Bytes(Payload(lock))));
    AlwaysRenders(mainnet, lock, T.ENCODE_MAX);
    NetworkIs(mainnet);
    T.EncodedIs(Network(mainnet), data);
    hide R.ToSymbols, T.Encoded, Payload, HasPeriod, Network, SymbolsOf, Bytes, T.Decode, T.Encodable;
    T.RoundTrip(T.ENCODE_MAX, dataMax, Network(mainnet), data);
  }

  // ---------- Rendering ----------

  lemma {:induction false} ConvertIs(xs: seq<u8>, max: nat)
    requires R.Convert(max, R.SYMBOL, Bytes(xs), R.BYTE, true).Some?
    ensures R.Convert(max, R.SYMBOL, Bytes(xs), R.BYTE, true).value == R.ToSymbols(Bytes(xs))
  {
    hide R.Groups, R.Rest, R.Flatten, R.Num, R.Clear;
  }

  lemma {:induction false} ConvertRoom(xs: seq<u8>, max: nat)
    requires |R.ToSymbols(Bytes(xs))| <= max
    ensures R.Convert(max, R.SYMBOL, Bytes(xs), R.BYTE, true).Some?
  {
    hide R.Groups, R.Rest, R.Flatten, R.Num, R.Clear;
  }

  /** The payload in symbols; the buffer of 256 is always large enough. */
  method ToBase32(payload: seq<u8>) returns (data: seq<nat>)
    requires |payload| <= 61
    ensures data == R.ToSymbols(Bytes(payload))
  {
    var base32 := new nat[256];
    BytesFit(payload);
    R.SymbolCount(Bytes(payload));
    ConvertRoom(payload, 256);
    ConvertIs(payload, 256);
    hide R.Fits, R.Convert, R.ToSymbols;
    var ok, len := R.ConvertBits(base32, 256, R.SYMBOL, Bytes(payload), R.BYTE, true);
    data := base32[..len];
  }

  /** `render_pkh`; false stands for its exception. */
  method RenderPkh(out: array<T.byte>, outSize: nat, mainnet: bool, payload: seq<u8>) returns (ok: bool, n: nat)
    requires outSize < out.Length && |payload| <= 61
    modifies out
    ensures var s := T.Encoded(Network(mainnet), SymbolsOf(R.ToSymbols(Bytes(payload))));
            && ok == T.Encodable(outSize, Network(mainnet), SymbolsOf(R.ToSymbols(Bytes(payload))))
            && (ok ==> n == |s| < out.Length && out[..n] == s && out[n] == 0)
  {
    hide R.ToSymbols, T.Encodable, T.Encoded, Symbol, Network;
    var data := ToBase32(payload);
    T.EncodedIs(Network(mainnet), SymbolsOf(data));
    n := |Network(mainnet)| + 7 + |data|;
    ok := C.Encode(out, outSize, Network(mainnet), SymbolsOf(data));
  }

  /** `lock_arg_to_sighash_address`. */
  method SighashAddress(out: array<T.byte>, outSize: nat, mainnet: bool, arg: LockArg) returns (ok: bool, n: nat)
    requires outSize < out.Length
    modifies out
    ensures ok == (|Rendered(mainnet, Sighash(arg[..20]))| <= outSize)
    ensures ok ==> n < out.Length && out[..n] == Rendered(mainnet, Sighash(arg[..20])) && out[n] == 0
  {
    AlwaysRenders(mainnet, Sighash(arg[..20]), outSize);
    var payload := [FORMAT_SHORT, INDEX_SIGHASH] + arg[..20];
    assert payload == Payload(Sighash(arg[..20]));
    hide R.ToSymbols, T.Encoded, Payload, Network, SymbolsOf, Bytes, T.Encodable;
    ok, n := RenderPkh(out, outSize, mainnet, payload);
  }

  /** `lock_arg_to_multisig_address`. */
  method MultisigAddress(out: array<T.byte>, outSize: nat, mainnet: bool, arg: LockArg) returns (ok: bool, n: nat)
    requires outSize < out.Length
    modifies out
    ensures ok == (|Rendered(mainnet, Multisig(arg))| <= outSize)
    ensures ok ==> n < out.Length && out[..n] == Rendered(mainnet, Multisig(arg)) && out[n] == 0
  {
    var hasPeriod, i := false, 0;
    while i < 8 && !hasPeriod
      invariant i <= 8
      invariant hasPeriod <==> exists j | 20 <= j < 20 + i :: arg[j] != 0
    {
      hasPeriod := arg[20 + i] != 0;
      i := i + 1;
    }
    assert hasPeriod <==> HasPeriod(arg);
    var payload := if hasPeriod then [FORMAT_FULL_TYPE] + MultisigLock() + arg else [FORMAT_SHORT, INDEX_MULTISIG] + arg[..20];
    assert payload == Payload(Multisig(arg));
    PayloadLength(Multisig(arg));
    AlwaysRenders(mainnet, Multisig(arg), outSize);
    hide R.ToSymbols, T.Encoded, Payload, Network, SymbolsOf, Bytes, T.Encodable, MultisigLock, HasPeriod;
    ok, n := RenderPkh(out, outSize, mainnet, payload);
  }
}
