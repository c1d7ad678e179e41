/** `bech32_encode` and `bech32_decode`, on zero-terminated strings of unsigned characters. */
module Bech32Text {
  import opened Wrappers
  import opened Bech32

  type byte = bv8

  /** `charset`. */
  function Chr(v: byte): byte {
    if v == 0 then 113 else if v == 1 then 112 else if v == 2 then 122 else if v == 3 then 114
    else if v == 4 then 121 else if v == 5 then 57 else if v == 6 then 120 else if v == 7 then 56
    else if v == 8 then 103 else if v == 9 then 102 else if v == 10 then 50 else if v == 11 then 116
    else if v == 12 then 118 else if v == 13 then 100 else if v == 14 then 119 else if v == 15 then 48
    else if v == 16 then 115 else if v == 17 then 51 else if v == 18 then 106 else if v == 19 then 110
    else if v == 20 then 53 else if v == 21 then 52 else if v == 22 then 107 else if v == 23 then 104
    else if v == 24 then 99 else if v == 25 then 101 else if v == 26 then 54 else if v == 27 then 109
    else if v == 28 then 117 else if v == 29 then 97 else if v == 30 then 55
    else 108
  }

  predicate IsUpper(ch: byte) {
    65 <= ch <= 90
  }

  predicate IsLower(ch: byte) {
    97 <= ch <= 122
  }

  function ToLower(ch: byte): byte {
    if IsUpper(ch) then ch + 32 else ch
  }

  /** `charset_rev` for digits and lower case. */
  function RevLower(ch: byte): Option<byte> {
    if ch == 48 then Some(15) else if ch == 50 then Some(10) else if ch == 51 then Some(17) else if ch == 52 then Some(21)
    else if ch == 53 then Some(20) else if ch == 54 then Some(26) else if ch == 55 then Some(30) else if ch == 56 then Some(7)
    else if ch == 57 then Some(5) else if ch == 97 then Some(29) else if ch == 99 then Some(24) else if ch == 100 then Some(13)
    else if ch == 101 then Some(25) else if ch == 102 then Some(9) else if ch == 103 then Some(8) else if ch == 104 then Some(23)
    else if ch == 106 then Some(18) else if ch == 107 then Some(22) else if ch == 108 then Some(31) else if ch == 109 then Some(27)
    else if ch == 110 then Some(19) else if ch == 112 then Some(1) else if ch == 113 then Some(0) else if ch == 114 then Some(3)
    else if ch == 115 then Some(16) else if ch == 116 then Some(11) else if ch == 117 then Some(28) else if ch == 118 then Some(12)
    else if ch == 119 then Some(14) else if ch == 120 then Some(6) else if ch == 121 then Some(4) else if ch == 122 then Some(2)
    else None
  }

  /** `charset_rev`; characters with the high bit set have no value. */
  function Rev(ch: byte): Option<byte> {
    RevLower(ToLower(ch))
  }

  predicate Pair(ch: byte, v: byte) {
    || (ch == 48 && v == 15) || (ch == 50 && v == 10) || (ch == 51 && v == 17) || (ch == 52 && v == 21)
    || (ch == 53 && v == 20) || (ch == 54 && v == 26) || (ch == 55 && v == 30) || (ch == 56 && v == 7)
    || (ch == 57 && v == 5) || (ch == 97 && v == 29) || (ch == 99 && v == 24) || (ch == 100 && v == 13)
    || (ch == 101 && v == 25) || (ch == 102 && v == 9) || (ch == 103 && v == 8) || (ch == 104 && v == 23)
    || (ch == 106 && v == 18) || (ch == 107 && v == 22) || (ch == 108 && v == 31) || (ch == 109 && v == 27)
    || (ch == 110 && v == 19) || (ch == 112 && v == 1) || (ch == 113 && v == 0) || (ch == 114 && v == 3)
    || (ch == 115 && v == 16) || (ch == 116 && v == 11) || (ch == 117 && v == 28) || (ch == 118 && v == 12)
    || (ch == 119 && v == 14) || (ch == 120 && v == 6) || (ch == 121 && v == 4) || (ch == 122 && v == 2)
  }

  lemma {:induction false} RevPair(ch: byte)
    requires RevLower(ch).Some?
    ensures Pair(ch, RevLower(ch).value)
  {
  }

  lemma {:induction false} ChrPair(ch: byte, v: byte)
    requires Pair(ch, v)
    ensures v < 32 && Chr(v) == ch && ch != 49 && ch != 0
  {
  }

  lemma {:induction false} PairChr(v: byte)
    requires v < 32
    ensures Pair(Chr(v), v)
  {
  }

  lemma {:induction false} PairRev(ch: byte, v: byte)
    requires Pair(ch, v)
    ensures RevLower(ch) == Some(v) && !IsUpper(ch) && ch != 49 && 33 <= ch <= 126
  {
  }

  lemma {:induction false} RevChr(v: byte)
    requires v < 32
    ensures Rev(Chr(v)) == Some(v)
    ensures !IsUpper(Chr(v)) && Chr(v) != 49 && Chr(v) != 0
  {
    hide Chr, Pair, RevLower;
    PairChr(v);
    PairRev(Chr(v), v);
  }

  lemma {:induction false} ChrRev(ch: byte)
    requires Rev(ch).Some?
    ensures Rev(ch).value < 32 && Chr(Rev(ch).value) == ToLower(ch) && ch != 49 && ch != 0
  {
    hide Chr, Pair, RevLower;
    RevPair(ToLower(ch));
    ChrPair(ToLower(ch), Rev(ch).value);
  }

  // ---------- Strings ----------

  const SEPARATOR: byte := 49
  const ENCODE_MAX := 108
  const DECODE_MAX := 90

  function High(ch: byte): byte { ch >> 5 }

  function LowOf(ch: byte): byte { ch & 0x1f }

  function Map(f: byte -> byte, xs: seq<byte>): (ys: seq<byte>)
    ensures |ys| == |xs| && forall i | 0 <= i < |xs| :: ys[i] == f(xs[i])
  {
    seq(|xs|, i requires 0 <= i < |xs| => f(xs[i]))
  }

  function Chars(xs: seq<byte>): (ys: seq<byte>)
    ensures |ys| == |xs| && forall i | 0 <= i < |xs| :: ys[i] == Chr(xs[i])
  {
    Map(Chr, xs)
  }

  /** The human-readable part as symbols: the high bits of its characters, a zero, and the low bits. */
  function Expand(hrp: seq<byte>): seq<byte> {
    Map(High, Map(ToLower, hrp)) + [0] + Map(LowOf, hrp)
  }

  lemma {:induction false} Bits(ch: byte)
    ensures High(ch) < 32 && LowOf(ch) < 32 && LowOf(ToLower(ch)) == LowOf(ch)
  {
  }

  /** `bech32_encode` returns 1. */
  predicate Encodable(outLen: nat, hrp: seq<byte>, data: seq<byte>) {
    && (forall i | 0 <= i < |hrp| :: !IsUpper(hrp[i]) && hrp[i] >= 32)
    && |hrp| + 7 + |data| <= ENCODE_MAX && Symbols(data) && |hrp| + 7 + |data| <= outLen
  }

  /** What is written, before the final zero. */
  function Encoded(hrp: seq<byte>, data: seq<byte>): seq<byte> {
    hrp + [SEPARATOR] + Chars(data) + Chars(Checksum(Fold(1, Expand(hrp) + data)))
  }

  /** How many characters there are after the last separator. */
  function Tail(s: seq<byte>): (n: nat)
    ensures n <= |s|
    ensures n < |s| ==> s[|s| - 1 - n] == SEPARATOR
    ensures forall i | |s| - n <= i < |s| :: s[i] != SEPARATOR
    decreases |s|
  {
    if s == [] || s[|s| - 1] == SEPARATOR then 0 else Tail(s[..|s| - 1]) + 1
  }

  predicate Printable(hrp: seq<byte>) {
    forall i | 0 <= i < |hrp| :: 33 <= hrp[i] <= 126
  }

  predicate InCharset(part: seq<byte>) {
    forall i | 0 <= i < |part| :: Rev(part[i]).Some?
  }

  function Values(part: seq<byte>): (xs: seq<byte>)
    requires InCharset(part)
    ensures |xs| == |part| && forall i | 0 <= i < |part| :: xs[i] == Rev(part[i]).value
  {
    seq(|part|, i requires 0 <= i < |part| => Rev(part[i]).value)
  }

  predicate AnyUpper(s: seq<byte>) {
    exists i | 0 <= i < |s| :: IsUpper(s[i])
  }

  predicate AnyLower(s: seq<byte>) {
    exists i | 0 <= i < |s| :: IsLower(s[i])
  }

  datatype Decoded = Decoded(hrp: seq<byte>, data: seq<byte>)

  /** The result of `bech32_decode`. Without a separator the length of the human-readable part wraps
      around, and its check stops at the final zero of the string. */
  function Decode(dataMax: nat, s: seq<byte>): Option<Decoded> {
    var n := Tail(s);
    if |s| < 8 || |s| > DECODE_MAX || n + 1 >= |s| || n < 6 || n > dataMax then None
    else
      var (hrp, part) := (s[..|s| - 1 - n], s[|s| - n..]);
      if !Printable(hrp) || !InCharset(part) || (AnyUpper(hrp + part) && AnyLower(hrp + part)) || Fold(1, Expand(hrp) + Values(part)) != 1
      then None
      else Some(Decoded(Map(ToLower, hrp), Values(part)[..n - 6]))
  }

  // ---------- Round trip ----------

  lemma {:induction false} TailIs(h: seq<byte>, part: seq<byte>)
    requires forall i | 0 <= i < |part| :: part[i] != SEPARATOR
    ensures Tail(h + [SEPARATOR] + part) == |part|
  {
    var s := h + [SEPARATOR] + part;
    assert s[|h|] == SEPARATOR;
    forall j | |h| < j < |s| ensures s[j] != SEPARATOR { assert s[j] == part[j - |h| - 1]; }
    hide Tail;
  }

  lemma {:induction false} CharsValues(xs: seq<byte>)
    requires Symbols(xs)
    ensures InCharset(Chars(xs)) && Values(Chars(xs)) == xs
    ensures forall i | 0 <= i < |xs| :: Chars(xs)[i] != SEPARATOR && !IsUpper(Chars(xs)[i]) && Chars(xs)[i] != 0
  {
    hide Chr, Rev;
    forall i | 0 <= i < |xs| ensures Rev(Chr(xs[i])) == Some(xs[i]) && !IsUpper(Chr(xs[i])) && Chr(xs[i]) != SEPARATOR && Chr(xs[i]) != 0 {
      RevChr(xs[i]);
    }
  }

  /** The symbols of the data part, checksum included. */
  function Payload(hrp: seq<byte>, data: seq<byte>): seq<byte> {
    data + Checksum(Fold(1, Expand(hrp) + data))
  }

  lemma {:induction false} PayloadIsOne(hrp: seq<byte>, data: seq<byte>)
    requires Symbols(data)
    ensures Symbols(Payload(hrp, data)) && Fold(1, Expand(hrp) + Payload(hrp, data)) == 1
  {
    OneSmall();
    hide Small, Checksum, Fold, Expand;
    var c := Fold(1, Expand(hrp) + data);
    SymbolsPlus(data, Checksum(c));
    hide Symbols;
    FoldSmall(1, Expand(hrp) + data);
    ChecksumIsOne(c);
    FoldPlus(1, Expand(hrp) + data, Checksum(c));
    assert Expand(hrp) + data + Checksum(c) == Expand(hrp) + Payload(hrp, data);
  }

  lemma {:induction false} OneSmall()
    ensures Small(1)
  {
  }

  lemma {:induction false} SymbolsPlus(xs: seq<byte>, ys: seq<byte>)
    requires Symbols(xs) && Symbols(ys)
    ensures Symbols(xs + ys)
  {
  }

  lemma {:induction false} EncodedIs(hrp: seq<byte>, data: seq<byte>)
    ensures Encoded(hrp, data) == hrp + [SEPARATOR] + Chars(Payload(hrp, data))
    ensures |Encoded(hrp, data)| == |hrp| + 7 + |data|
  {
    hide Chr, Checksum, Fold, Expand;
    var sum := Checksum(Fold(1, Expand(hrp) + data));
    assert Chars(data + sum) == Chars(data) + Chars(sum);
  }

  lemma {:induction false} LowerIs(hrp: seq<byte>)
    requires !AnyUpper(hrp)
    ensures Map(ToLower, hrp) == hrp
  {
  }

  /** For every string that `bech32_encode` produces, `bech32_decode` returns what was encoded exactly
      if the human-readable part is not empty and printable, and the string is no longer than 90
      characters. */
  lemma {:induction false} RoundTrip(outLen: nat, dataMax: nat, hrp: seq<byte>, data: seq<byte>)
    requires Encodable(outLen, hrp, data) && |data| + 6 <= dataMax
    ensures Decode(dataMax, Encoded(hrp, data)) == Some(Decoded(hrp, data))
       <==> hrp != [] && Printable(hrp) && |hrp| + 7 + |data| <= DECODE_MAX
  {
    var part := Chars(Payload(hrp, data));
    var s := Encoded(hrp, data);
    EncodedIs(hrp, data);
    PayloadIsOne(hrp, data);
    CharsValues(Payload(hrp, data));
    TailIs(hrp, part);
    assert |Payload(hrp, data)| == |data| + 6;
    assert s[..|hrp|] == hrp && s[|hrp| + 1..] == part;
    assert Payload(hrp, data)[..|data|] == data;
    assert !AnyUpper(hrp);
    LowerIs(hrp);
    NoUpper(hrp, part);
    hide Chr, Rev, Checksum, Fold, Expand, Map, Tail, Payload, Encoded, Chars, IsUpper, IsLower, AnyLower, Symbols;
  }

  lemma {:induction false} NoUpper(hrp: seq<byte>, part: seq<byte>)
    requires !AnyUpper(hrp) && forall i | 0 <= i < |part| :: !IsUpper(part[i])
    ensures !AnyUpper(hrp + part)
  {
  }

  // ---------- Errors ----------

  lemma {:induction false} DecodeFacts(dataMax: nat, s: seq<byte>)
    requires Decode(dataMax, s).Some?
    ensures var n := Tail(s);
            && 6 <= n && n + 1 < |s| && InCharset(s[|s| - n..])
            && Fold(1, Expand(s[..|s| - 1 - n]) + Values(s[|s| - n..])) == 1
  {
    hide Fold, Expand, Rev;
  }

  /** Characters of the charset have the same values exactly if they differ at most in case. */
  lemma {:induction false} SameValues(xs: seq<byte>, ys: seq<byte>)
    requires InCharset(xs) && InCharset(ys)
    ensures Values(xs) == Values(ys) <==> |xs| == |ys| && forall j | 0 <= j < |xs| :: ToLower(xs[j]) == ToLower(ys[j])
  {
    if |xs| == |ys| {
      forall j | 0 <= j < |xs| ensures Values(xs)[j] == Values(ys)[j] <==> ToLower(xs[j]) == ToLower(ys[j]) {
        hide Chr, ToLower, RevLower;
        ChrRev(xs[j]);
        ChrRev(ys[j]);
      }
    }
    hide Chr, Rev, ToLower;
  }

  lemma {:induction false} ValuesSymbols(xs: seq<byte>)
    requires InCharset(xs)
    ensures Symbols(Values(xs)) && forall i | 0 <= i < |xs| :: xs[i] != SEPARATOR
  {
    hide Chr;
    forall i | 0 <= i < |xs| ensures Values(xs)[i] < 32 && xs[i] != SEPARATOR { ChrRev(xs[i]); }
    hide Rev;
  }

  /** The checksum of an accepted string with this separator. */
  lemma {:induction false} AcceptedSum(dataMax: nat, h: seq<byte>, part: seq<byte>)
    requires InCharset(part) && Decode(dataMax, h + [SEPARATOR] + part).Some?
    ensures Fold(1, Expand(h) + Values(part)) == 1
  {
    var s := h + [SEPARATOR] + part;
    ValuesSymbols(part);
    TailIs(h, part);
    DecodeFacts(dataMax, s);
    assert s[..|h|] == h && s[|h| + 1..] == part;
    hide Decode, Tail, Fold, Expand, Rev;
  }

  /** No change of an accepted string's data part to other characters of the charset, within six
      consecutive characters, is accepted, unless it only changes their case. */
  lemma {:induction false} BurstRejected(dataMax: nat, h: seq<byte>, part: seq<byte>, other: seq<byte>, i: nat)
    requires InCharset(part) && InCharset(other) && AgreeOutside(part, other, i)
    requires exists j | 0 <= j < |part| && j < |other| :: ToLower(part[j]) != ToLower(other[j])
    requires Decode(dataMax, h + [SEPARATOR] + part).Some?
    ensures Decode(dataMax, h + [SEPARATOR] + other).None?
  {
    hide *;
    SameValues(part, other);
    if Decode(dataMax, h + [SEPARATOR] + other).Some? {
      AcceptedSum(dataMax, h, part);
      AcceptedSum(dataMax, h, other);
      SameChecksum(h, part, other, i);
    }
  }

  lemma {:induction false} SameChecksum(h: seq<byte>, xs: seq<byte>, ys: seq<byte>, i: nat)
    requires InCharset(xs) && InCharset(ys) && AgreeOutside(xs, ys, i)
    requires Fold(1, Expand(h) + Values(xs)) == 1 && Fold(1, Expand(h) + Values(ys)) == 1
    ensures Values(xs) == Values(ys)
  {
    var c := Fold(1, Expand(h));
    OneSmall();
    hide Small, Fold, Expand, Chr, Rev;
    FoldSmall(1, Expand(h));
    FoldPlus(1, Expand(h), Values(xs));
    FoldPlus(1, Expand(h), Values(ys));
    ValuesSymbols(xs);
    ValuesSymbols(ys);
    assert AgreeOutside(Values(xs), Values(ys), i);
    BurstDetected(c, Values(xs), Values(ys), i);
  }

  // ---------- What is accepted ----------

  lemma {:induction false} CharsPlus(xs: seq<byte>, ys: seq<byte>)
    ensures Chars(xs + ys) == Chars(xs) + Chars(ys)
  {
    hide Chr;
  }

  /** Six symbols that bring the checksum to 1 are those that the encoder appends. */
  lemma {:induction false} SumIsOnly(hrp: seq<byte>, data: seq<byte>, sum: seq<byte>)
    requires Symbols(data) && Symbols(sum) && |sum| == 6 && Fold(1, Expand(hrp) + data + sum) == 1
    ensures Encoded(hrp, data) == hrp + [SEPARATOR] + Chars(data + sum)
  {
    var c := Fold(1, Expand(hrp) + data);
    var own := Checksum(c);
    OneSmall();
    EncodedIs(hrp, data);
    hide Small, Fold, Checksum, Expand;
    FoldPlus(1, Expand(hrp) + data, sum);
    FoldSmall(1, Expand(hrp) + data);
    ChecksumIsOne(c);
    assert AgreeOutside(sum, own, 0);
    BurstDetected(c, sum, own, 0);
  }

  function ToUpper(ch: byte): byte {
    if IsLower(ch) then ch - 32 else ch
  }

  lemma {:induction false} CaseIs(ch: byte)
    ensures !IsUpper(ch) ==> ToLower(ch) == ch
    ensures !IsLower(ch) ==> ToUpper(ToLower(ch)) == ch
    ensures ToLower(ToUpper(ch)) == ToLower(ch) && !IsLower(ToUpper(ch)) && !IsUpper(ToLower(ch))
    ensures LowOf(ToUpper(ch)) == LowOf(ch) && LowOf(ToLower(ch)) == LowOf(ch)
    ensures (33 <= ToUpper(ch) <= 126 <==> 33 <= ch <= 126) && (33 <= ToLower(ch) <= 126 <==> 33 <= ch <= 126)
    ensures (ToLower(ch) == SEPARATOR <==> ch == SEPARATOR) && (ToUpper(ch) == SEPARATOR <==> ch == SEPARATOR)
  {
  }

  function Lower(s: seq<byte>): (r: seq<byte>)
    ensures |r| == |s|
  {
    Map(ToLower, s)
  }

  function Upper(s: seq<byte>): (r: seq<byte>)
    ensures |r| == |s|
  {
    Map(ToUpper, s)
  }

  /** The string is the encoding, in lower or in upper case. */
  predicate Spelled(s: seq<byte>, hrp: seq<byte>, data: seq<byte>) {
    s == Encoded(hrp, data) || s == Upper(Encoded(hrp, data))
  }

  lemma {:induction false} CaseAll(s: seq<byte>)
    ensures !AnyUpper(s) ==> Lower(s) == s
    ensures !AnyLower(s) ==> Upper(Lower(s)) == s
    ensures Lower(Upper(s)) == Lower(s) && !AnyLower(Upper(s)) && !AnyUpper(Lower(s))
    ensures Expand(Upper(s)) == Expand(s) == Expand(Lower(s))
    ensures (Printable(Upper(s)) <==> Printable(s)) && (Printable(Lower(s)) <==> Printable(s))
  {
    hide ToLower, ToUpper, IsUpper, IsLower, LowOf, High;
    forall ch: byte
      ensures !IsUpper(ch) ==> ToLower(ch) == ch
      ensures !IsLower(ch) ==> ToUpper(ToLower(ch)) == ch
      ensures ToLower(ToUpper(ch)) == ToLower(ch) && !IsLower(ToUpper(ch)) && !IsUpper(ToLower(ch))
      ensures LowOf(ToUpper(ch)) == LowOf(ch) && LowOf(ToLower(ch)) == LowOf(ch)
      ensures (33 <= ToUpper(ch) <= 126 <==> 33 <= ch <= 126) && (33 <= ToLower(ch) <= 126 <==> 33 <= ch <= 126)
    {
      CaseIs(ch);
    }
    forall i | 0 <= i < |s| ensures ToLower(ToLower(s[i])) == ToLower(s[i]) { CaseIs(ToLower(s[i])); }
    assert Map(ToLower, Lower(s)) == Lower(s) && Map(ToLower, Upper(s)) == Lower(s);
    assert Map(LowOf, Upper(s)) == Map(LowOf, s) == Map(LowOf, Lower(s));
  }

  lemma {:induction false} CaseValues(part: seq<byte>)
    ensures (InCharset(Upper(part)) <==> InCharset(part)) && (InCharset(Lower(part)) <==> InCharset(part))
    ensures InCharset(part) ==> Values(Upper(part)) == Values(part) && Chars(Values(part)) == Lower(part)
  {
    forall i | 0 <= i < |part| ensures Rev(Upper(part)[i]) == Rev(part[i]) && Rev(Lower(part)[i]) == Rev(part[i]) {
      CaseIs(part[i]);
      CaseIs(ToLower(part[i]));
      hide ToLower, ToUpper, IsUpper, IsLower, RevLower;
    }
    if InCharset(part) {
      forall i | 0 <= i < |part| ensures Chr(Rev(part[i]).value) == ToLower(part[i]) {
        ChrRev(part[i]);
        hide Chr, Rev, ToLower;
      }
    }
    hide Chr, Rev, ToLower, ToUpper;
  }

  lemma {:induction false} MapPlus(f: byte -> byte, h: seq<byte>, part: seq<byte>)
    ensures Map(f, h + [SEPARATOR] + part) == Map(f, h) + [f(SEPARATOR)] + Map(f, part)
  {
  }

  lemma {:induction false} SeparatorCase()
    ensures !IsUpper(SEPARATOR) && !IsLower(SEPARATOR) && ToLower(SEPARATOR) == SEPARATOR == ToUpper(SEPARATOR)
  {
  }

  lemma {:induction false} CasePlus(h: seq<byte>, part: seq<byte>)
    ensures Lower(h + [SEPARATOR] + part) == Lower(h) + [SEPARATOR] + Lower(part)
    ensures Upper(h + [SEPARATOR] + part) == Upper(h) + [SEPARATOR] + Upper(part)
  {
    SeparatorCase();
    hide ToLower, ToUpper, Map;
    MapPlus(ToLower, h, part);
    MapPlus(ToUpper, h, part);
  }

  lemma {:induction false} AnyPlus(h: seq<byte>, part: seq<byte>)
    ensures var s := h + [SEPARATOR] + part; (AnyUpper(s) <==> AnyUpper(h + part)) && (AnyLower(s) <==> AnyLower(h + part))
  {
    var s, t := h + [SEPARATOR] + part, h + part;
    SeparatorCase();
    hide IsUpper, IsLower;
    forall i | 0 <= i < |t| ensures t[i] == s[if i < |h| then i else i + 1] {}
    forall i | 0 <= i < |s| && i != |h| ensures s[i] == t[if i < |h| then i else i - 1] {}
  }

  /** The human-readable part and the data part of a string, when there are two. */
  lemma {:induction false} DecodeParts(dataMax: nat, s: seq<byte>)
    requires Decode(dataMax, s).Some?
    ensures var n := Tail(s);
            var h, part, d := s[..|s| - 1 - n], s[|s| - n..], Decode(dataMax, s).value;
            && 6 <= n <= dataMax && h != [] && |s| <= DECODE_MAX && s == h + [SEPARATOR] + part && Printable(h) && InCharset(part)
            && !(AnyUpper(h + part) && AnyLower(h + part)) && Fold(1, Expand(h) + Values(part)) == 1
            && d == Decoded(Lower(h), Values(part)[..n - 6])
  {
    hide Fold, Expand, Rev, ToLower, IsUpper, IsLower;
  }

  lemma {:induction false} AcceptedSpells(dataMax: nat, s: seq<byte>, hrp: seq<byte>, data: seq<byte>)
    requires Decode(dataMax, s) == Some(Decoded(hrp, data))
    ensures Spelled(s, hrp, data) && Symbols(data) && hrp != [] && Printable(hrp) && !AnyUpper(hrp)
    ensures |hrp| + 7 + |data| <= DECODE_MAX && |data| + 6 <= dataMax
  {
    hide Decode, Tail, Fold, Expand, Values, Lower, Upper, Printable, InCharset, AnyUpper, AnyLower, Symbols, Spelled, Map;
    DecodeParts(dataMax, s);
    var n := Tail(s);
    var h, part := s[..|s| - 1 - n], s[|s| - n..];
    var sum := Values(part)[n - 6..];
    CaseAll(h);
    ValuesSymbols(part);
    SymbolsSplit(Values(part), n - 6);
    assert Expand(hrp) + data + sum == Expand(h) + (data + sum);
    SpelledFrom(s, h, part, hrp, data, sum);
  }

  lemma {:induction false} SymbolsSplit(xs: seq<byte>, n: nat)
    requires Symbols(xs) && n <= |xs|
    ensures Symbols(xs[..n]) && Symbols(xs[n..]) && xs[..n] + xs[n..] == xs
  {
  }

  lemma {:induction false} SpelledFrom(s: seq<byte>, h: seq<byte>, part: seq<byte>, hrp: seq<byte>, data: seq<byte>, sum: seq<byte>)
    requires s == h + [SEPARATOR] + part && InCharset(part) && hrp == Lower(h) && data + sum == Values(part) && |sum| == 6
    requires Symbols(data) && Symbols(sum) && Fold(1, Expand(hrp) + data + sum) == 1 && !(AnyUpper(h + part) && AnyLower(h + part))
    ensures Spelled(s, hrp, data)
  {
    hide Fold, Expand, Values, Lower, Upper, Printable, InCharset, AnyUpper, AnyLower, Symbols, Encoded, Chars;
    SumIsOnly(hrp, data, sum);
    CaseValues(part);
    CasePlus(h, part);
    AnyPlus(h, part);
    CaseAll(s);
  }

  lemma {:induction false} UpperDecodes(dataMax: nat, hrp: seq<byte>, data: seq<byte>)
    requires Symbols(data) && hrp != [] && Printable(hrp) && !AnyUpper(hrp) && |hrp| + 7 + |data| <= DECODE_MAX && |data| + 6 <= dataMax
    ensures Decode(dataMax, Upper(Encoded(hrp, data))) == Some(Decoded(hrp, data))
  {
    hide Decode, Tail, Fold, Expand, Values, Lower, Upper, Printable, InCharset, AnyUpper, AnyLower, Symbols, Encoded, Chars, Payload, Map, Rev;
    var xs := Payload(hrp, data);
    var part := Chars(xs);
    EncodedIs(hrp, data);
    PayloadIsOne(hrp, data);
    PayloadFront(hrp, data);
    CharsValues(xs);
    CasePlus(hrp, part);
    CaseAll(hrp);
    CaseAll(Encoded(hrp, data));
    CaseValues(part);
    NoSeparator(part);
    AnyPlus(Upper(hrp), Upper(part));
    DecodeWhole(dataMax, Upper(hrp), Upper(part));
  }

  lemma {:induction false} PayloadFront(hrp: seq<byte>, data: seq<byte>)
    ensures |Payload(hrp, data)| == |data| + 6 && Payload(hrp, data)[..|data|] == data
  {
    hide Fold, Checksum, Expand;
  }

  /** The decoder on a string that is in two parts. */
  lemma {:induction false} DecodeWhole(dataMax: nat, h: seq<byte>, part: seq<byte>)
    requires h != [] && 6 <= |part| <= dataMax && |h| + 1 + |part| <= DECODE_MAX && Printable(h) && InCharset(part) && !AnyLower(h + part)
    requires (forall i | 0 <= i < |part| :: part[i] != SEPARATOR) && Fold(1, Expand(h) + Values(part)) == 1
    ensures Decode(dataMax, h + [SEPARATOR] + part) == Some(Decoded(Lower(h), Values(part)[..|part| - 6]))
  {
    var s := h + [SEPARATOR] + part;
    TailIs(h, part);
    assert s[..|h|] == h && s[|h| + 1..] == part;
    hide Fold, Expand, Rev, ToLower, IsUpper, IsLower, Tail;
  }

  lemma {:induction false} NoSeparator(part: seq<byte>)
    requires forall i | 0 <= i < |part| :: part[i] != SEPARATOR
    ensures forall i | 0 <= i < |part| :: Upper(part)[i] != SEPARATOR
  {
    forall i | 0 <= i < |part| ensures Upper(part)[i] != SEPARATOR { CaseIs(part[i]); }
  }

  /** `bech32_decode` accepts exactly the encodings, in lower or in upper case, of data behind a
      human-readable part that is not empty, printable and in lower case, up to 90 characters. */
  lemma {:induction false} AcceptedExactly(dataMax: nat, s: seq<byte>, hrp: seq<byte>, data: seq<byte>)
    ensures Decode(dataMax, s) == Some(Decoded(hrp, data))
       <==> && Spelled(s, hrp, data) && Symbols(data) && hrp != [] && Printable(hrp) && !AnyUpper(hrp)
            && |hrp| + 7 + |data| <= 90 && |data| + 6 <= dataMax
  {
    if Decode(dataMax, s) == Some(Decoded(hrp, data)) { AcceptedSpells(dataMax, s, hrp, data); }
    if Spelled(s, hrp, data) && Symbols(data) && hrp != [] && Printable(hrp) && !AnyUpper(hrp) && |hrp| + 7 + |data| <= 90 && |data| + 6 <= dataMax {
      if s == Encoded(hrp, data) { RoundTrip(ENCODE_MAX, dataMax, hrp, data); } else { UpperDecodes(dataMax, hrp, data); }
    }
    hide Decode, Encoded, Upper;
  }
}
