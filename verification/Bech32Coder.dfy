/** `bech32_encode` and `bech32_decode` as loops over buffers. */
module Bech32Coder {
  import opened Wrappers
  import opened Bech32
  import opened Bech32Text

  lemma {:induction false} ExpandLower(hrp: seq<byte>)
    requires !AnyUpper(hrp)
    ensures Expand(hrp) == Map(High, hrp) + [0] + Map(LowOf, hrp)
  {
    LowerIs(hrp);
    hide Map;
  }

  lemma {:induction false} MapNext(f: byte -> byte, xs: seq<byte>, i: nat)
    requires i < |xs|
    ensures Map(f, xs[..i + 1]) == Map(f, xs[..i]) + [f(xs[i])]
  {
    assert xs[..i + 1] == xs[..i] + [xs[i]];
  }

  /** One more symbol. */
  lemma {:induction false} FoldMap(c: bv32, xs: seq<byte>, f: byte -> byte, ys: seq<byte>, i: nat)
    requires i < |ys|
    ensures Fold(c, xs + Map(f, ys[..i + 1])) == Xor(Step(Fold(c, xs + Map(f, ys[..i]))), Wide(f(ys[i])))
  {
    hide Fold, Xor, Step, Wide, Map;
    MapNext(f, ys, i);
    assert xs + Map(f, ys[..i + 1]) == xs + Map(f, ys[..i]) + [f(ys[i])];
    FoldOne(c, xs + Map(f, ys[..i]), f(ys[i]));
  }

  /** The first loop of `bech32_encode`, over the high bits, and its checks. */
  method SumHighs(hrp: seq<byte>, dataLen: nat) returns (ok: bool, chk: bv32)
    ensures ok == ((forall i | 0 <= i < |hrp| :: !IsUpper(hrp[i]) && hrp[i] >= 32) && |hrp| + 7 + dataLen <= ENCODE_MAX)
    ensures ok ==> chk == Fold(1, Map(High, hrp) + [0])
  {
    hide Fold, Xor, Step, Wide, Map, High;
    ok, chk := false, 1;
    var i := 0;
    FoldStart();
    while i < |hrp|
      invariant i <= |hrp| && chk == Fold(1, [] + Map(High, hrp[..i]))
      invariant forall j | 0 <= j < i :: !IsUpper(hrp[j]) && hrp[j] >= 32
    {
      HighZero(hrp[i]);
      if IsUpper(hrp[i]) { return; }
      if High(hrp[i]) == 0 { return; }
      FoldMap(1, [], High, hrp, i);
      chk := Xor(Step(chk), Wide(High(hrp[i])));
      i := i + 1;
    }
    if i + 7 + dataLen > ENCODE_MAX { return; }
    assert hrp[..|hrp|] == hrp && [] + Map(High, hrp) == Map(High, hrp);
    FoldOne(1, Map(High, hrp), 0);
    WideZero(Step(chk));
    chk := Step(chk);
    ok := true;
  }

  lemma {:induction false} FoldStart()
    ensures forall s: seq<byte>, f: byte -> byte :: Fold(1, [] + Map(f, s[..0])) == 1
  {
    forall s: seq<byte>, f: byte -> byte ensures Fold(1, [] + Map(f, s[..0])) == 1 {
      assert [] + Map(f, s[..0]) == [];
    }
  }

  lemma {:induction false} HighZero(ch: byte)
    ensures High(ch) == 0 <==> ch < 32
  {
  }

  lemma {:induction false} WideZero(c: bv32)
    ensures Xor(c, Wide(0)) == c
  {
  }

  /** The second loop: writes the human-readable part and adds its low bits. */
  method WriteHrp(output: array<byte>, outLen: nat, hrp: seq<byte>, chk0: bv32) returns (ok: bool, chk: bv32)
    requires outLen < output.Length
    modifies output
    ensures ok == (|hrp| <= outLen)
    ensures ok ==> output[..|hrp|] == hrp && chk == Fold(chk0, Map(LowOf, hrp))
  {
    hide Fold, Xor, Step, Wide, Map, LowOf;
    ok, chk := false, chk0;
    var off := 0;
    FoldEmpty(chk0, LowOf, hrp);
    while off < |hrp|
      invariant off <= |hrp| && off <= outLen
      invariant output[..off] == hrp[..off] && chk == Fold(chk0, [] + Map(LowOf, hrp[..off]))
    {
      FoldMap(chk0, [], LowOf, hrp, off);
      chk := Xor(Step(chk), Wide(LowOf(hrp[off])));
      if off >= outLen { return; }
      output[off] := hrp[off];
      off := off + 1;
    }
    assert hrp[..|hrp|] == hrp && [] + Map(LowOf, hrp) == Map(LowOf, hrp);
    ok := true;
  }

  lemma {:induction false} FoldEmpty(c: bv32, f: byte -> byte, s: seq<byte>)
    ensures Fold(c, [] + Map(f, s[..0])) == c
  {
    assert [] + Map(f, s[..0]) == [];
  }

  lemma {:induction false} FoldData(c: bv32, data: seq<byte>, i: nat)
    requires i < |data|
    ensures Fold(c, data[..i + 1]) == Xor(Step(Fold(c, data[..i])), Wide(data[i]))
  {
    hide Fold, Xor, Step, Wide;
    assert data[..i + 1] == data[..i] + [data[i]];
    FoldOne(c, data[..i], data[i]);
  }

  lemma {:induction false} SymbolIs(x: byte)
    ensures x >> 5 == 0 <==> x < 32
  {
  }

  /** The third loop: writes the data, character by character. */
  method WriteData(output: array<byte>, outLen: nat, from: nat, data: seq<byte>, chk0: bv32) returns (ok: bool, chk: bv32)
    requires from <= outLen < output.Length
    modifies output
    ensures ok == (Symbols(data) && from + |data| <= outLen)
    ensures ok ==> output[..from + |data|] == old(output[..from]) + Chars(data) && chk == Fold(chk0, data)
  {
    hide Fold, Xor, Step, Wide, Chr;
    ok, chk := false, chk0;
    ghost var before := output[..from];
    var i := 0;
    assert data[..0] == [];
    assert Fold(chk0, []) == chk0 by { FoldEmpty(chk0, Chr, []); assert [] + Map(Chr, [][..0]) == []; }
    while i < |data|
      invariant i <= |data| && from + i <= outLen && Symbols(data[..i])
      invariant output[..from + i] == before + Chars(data[..i]) && chk == Fold(chk0, data[..i])
    {
      SymbolIs(data[i]);
      if data[i] >> 5 != 0 { return; }
      FoldData(chk0, data, i);
      chk := Xor(Step(chk), Wide(data[i]));
      if from + i >= outLen { return; }
      output[from + i] := Chr(data[i]);
      assert Chars(data[..i + 1]) == Chars(data[..i]) + [Chr(data[i])];
      i := i + 1;
    }
    assert data[..|data|] == data;
    ok := true;
  }

  /** The last loops: six more steps, and the checksum characters. */
  method WriteSum(output: array<byte>, outLen: nat, from: nat, chk0: bv32) returns (ok: bool)
    requires from <= outLen < output.Length
    modifies output
    ensures ok == (from + 6 <= outLen)
    ensures ok ==> output[..from + 6] == old(output[..from]) + Chars(Checksum(chk0))
  {
    hide Xor, Step, Wide, Chr, Split, Fold, Blank;
    ghost var before := output[..from];
    var chk, i := chk0, 0;
    BlankStart(chk0);
    while i < 6
      invariant i <= 6 && chk == Fold(chk0, Blank(i)) && output[..from] == before
    {
      BlankNext(chk0, i);
      chk := Step(chk);
      i := i + 1;
    }
    chk := Xor(chk, 1);
    ghost var sum := Checksum(chk0);
    i := 0;
    assert before + Chars(sum[..0]) == before;
    while i < 6
      invariant i <= 6 && from + i <= outLen
      invariant output[..from + i] == before + Chars(sum[..i])
    {
      if from + i >= outLen { return false; }
      SplitAt(chk, i);
      output[from + i] := Chr(Low(Shr(chk, 5 - i)));
      assert sum[..i + 1] == sum[..i] + [sum[i]];
      assert Chars(sum[..i + 1]) == Chars(sum[..i]) + [Chr(sum[i])];
      i := i + 1;
    }
    assert sum[..6] == sum;
    ok := true;
  }

  lemma {:induction false} BlankStart(c: bv32)
    ensures Fold(c, Blank(0)) == c
  {
    assert Blank(0) == [];
  }

  lemma {:induction false} BlankNext(c: bv32, i: nat)
    ensures Fold(c, Blank(i + 1)) == Step(Fold(c, Blank(i)))
  {
    hide Fold, Xor, Step, Wide;
    assert Blank(i + 1) == Blank(i) + [0];
    FoldOne(c, Blank(i), 0);
    WideZero(Step(Fold(c, Blank(i))));
  }

  lemma {:induction false} SplitAt(d: bv32, i: nat)
    requires i < 6
    ensures Split(d, 6)[i] == Low(Shr(d, 5 - i))
  {
    hide Low, Shr;
    SplitFrom(d, 6, i);
  }

  lemma {:induction false} SplitFrom(d: bv32, n: nat, i: nat)
    requires i < n <= 6
    ensures Split(d, n)[i] == Low(Shr(d, n - 1 - i))
  {
    hide Low, Shr;
    if i > 0 { SplitFrom(d, n - 1, i - 1); }
  }

  /** `bech32_encode`. The final zero is not checked against `outLen`, so the buffer must be longer. */
  method Encode(output: array<byte>, outLen: nat, hrp: seq<byte>, data: seq<byte>) returns (ok: bool)
    requires outLen < output.Length
    modifies output
    ensures ok == Encodable(outLen, hrp, data)
    ensures ok ==> var n := |hrp| + 7 + |data|; n < output.Length && output[..n] == Encoded(hrp, data) && output[n] == 0
  {
    hide Fold, Map, Checksum, Chr, Symbols;
    var chk;
    ok, chk := SumHighs(hrp, |data|);
    if !ok { return; }
    ghost var highs := Map(High, hrp) + [0];
    ok, chk := WriteHrp(output, outLen, hrp, chk);
    if !ok { return; }
    ExpandLower(hrp);
    FoldPlus(1, highs, Map(LowOf, hrp));
    var off := |hrp|;
    if off >= outLen { return false; }
    output[off] := SEPARATOR;
    off := off + 1;
    assert output[..off] == hrp + [SEPARATOR];
    ok, chk := WriteData(output, outLen, off, data, chk);
    if !ok { return; }
    FoldPlus(1, Expand(hrp), data);
    off := off + |data|;
    ok := WriteSum(output, outLen, off, chk);
    if !ok { return; }
    off := off + 6;
    output[off] := 0;
  }

  // ---------- Decoding ----------

  /** Counts the characters after the last separator. */
  method FindTail(s: seq<byte>) returns (n: nat)
    ensures n == Tail(s)
  {
    n := 0;
    while n < |s| && s[|s| - 1 - n] != SEPARATOR
      invariant n <= |s| && forall i | |s| - n <= i < |s| :: s[i] != SEPARATOR
    {
      n := n + 1;
    }
    TailUnique(s, n);
  }

  lemma {:induction false} TailUnique(s: seq<byte>, n: nat)
    requires n <= |s| && (n < |s| ==> s[|s| - 1 - n] == SEPARATOR) && forall i | |s| - n <= i < |s| :: s[i] != SEPARATOR
    ensures Tail(s) == n
  {
    hide Tail;
  }

  lemma {:induction false} LowerNext(s: seq<byte>, i: nat)
    requires i < |s|
    ensures AnyLower(s[..i + 1]) == (AnyLower(s[..i]) || IsLower(s[i])) && AnyUpper(s[..i + 1]) == (AnyUpper(s[..i]) || IsUpper(s[i]))
  {
    assert s[..i + 1][i] == s[i];
    assert forall j | 0 <= j < i :: s[..i + 1][j] == s[..i][j];
    hide IsLower, IsUpper;
  }

  lemma {:induction false} CaseIs(ch: byte)
    ensures !(IsLower(ch) && IsUpper(ch)) && (IsLower(ch) ==> ToLower(ch) == ch)
    ensures (ch - 65) + 97 == ch + 32
  {
  }

  /** The first loop over the human-readable part: range, case, high bits, and a copy in lower case. */
  method ReadHrp(hrp: array<byte>, s: seq<byte>) returns (ok: bool, lower: bool, upper: bool, chk: bv32)
    requires |s| < hrp.Length
    modifies hrp
    ensures ok == Printable(s)
    ensures ok ==> hrp[..|s|] == Map(ToLower, s) && hrp[|s|] == 0 && lower == AnyLower(s) && upper == AnyUpper(s)
    ensures ok ==> chk == Fold(1, Map(High, Map(ToLower, s)) + [0])
  {
    hide Fold, Xor, Step, Wide, Map, High, IsLower, IsUpper, ToLower;
    ok, lower, upper, chk := false, false, false, 1;
    var i := 0;
    ghost var l := Map(ToLower, s);
    FoldEmpty(1, High, l);
    NoCase(s);
    while i < |s|
      invariant i <= |s| && chk == Fold(1, [] + Map(High, l[..i]))
      invariant forall j | 0 <= j < i :: 33 <= s[j] <= 126
      invariant hrp[..i] == l[..i] && lower == AnyLower(s[..i]) && upper == AnyUpper(s[..i])
    {
      var ch := s[i];
      if ch < 33 || ch > 126 { return; }
      LowerNext(s, i);
      CaseIs(ch);
      LowerUpper(ch);
      if IsLower(ch) {
        lower := true;
      } else if IsUpper(ch) {
        upper := true;
        ch := (ch - 65) + 97;
      }
      hrp[i] := ch;
      FoldMap(1, [], High, l, i);
      chk := Xor(Step(chk), Wide(High(ch)));
      i := i + 1;
    }
    hrp[i] := 0;
    assert l[..|s|] == l && [] + Map(High, l) == Map(High, l) && s[..|s|] == s;
    FoldOne(1, Map(High, l), 0);
    WideZero(Step(chk));
    chk := Step(chk);
    ok := true;
  }

  lemma {:induction false} LowerUpper(ch: byte)
    ensures ToLower(ch) == if IsUpper(ch) then ch + 32 else ch
  {
  }

  lemma {:induction false} NoCase(s: seq<byte>)
    ensures !AnyLower(s[..0]) && !AnyUpper(s[..0])
  {
  }

  /** The second loop over the human-readable part: low bits. */
  method SumLows(s: seq<byte>, chk0: bv32) returns (chk: bv32)
    ensures chk == Fold(chk0, Map(LowOf, s))
  {
    hide Fold, Xor, Step, Wide, Map, LowOf;
    chk := chk0;
    var i := 0;
    FoldEmpty(chk0, LowOf, s);
    while i < |s|
      invariant i <= |s| && chk == Fold(chk0, [] + Map(LowOf, s[..i]))
    {
      FoldMap(chk0, [], LowOf, s, i);
      chk := Xor(Step(chk), Wide(LowOf(s[i])));
      i := i + 1;
    }
    assert s[..|s|] == s && [] + Map(LowOf, s) == Map(LowOf, s);
  }

  lemma {:induction false} ValuesNext(part: seq<byte>, i: nat)
    requires i < |part| && InCharset(part[..i]) && Rev(part[i]).Some?
    ensures InCharset(part[..i + 1]) && Values(part[..i + 1]) == Values(part[..i]) + [Rev(part[i]).value]
  {
    hide Rev;
    var p := part[..i + 1];
    forall j | 0 <= j < |p| ensures Rev(p[j]).Some? { if j < i { assert p[j] == part[..i][j]; } }
    assert forall j | 0 <= j < i :: p[j] == part[..i][j];
  }

  lemma {:induction false} NotInCharset(part: seq<byte>, i: nat)
    requires i < |part| && Rev(part[i]).None?
    ensures !InCharset(part)
  {
    hide Rev;
  }

  /** The loop over the data part: looks up each character, and keeps all but the last six values. */
  method ReadData(data: array<byte>, part: seq<byte>, chk0: bv32, lower0: bool, upper0: bool)
    returns (ok: bool, lower: bool, upper: bool, chk: bv32)
    requires 6 <= |part| <= data.Length + 6
    modifies data
    ensures ok == InCharset(part)
    ensures ok ==> data[..|part| - 6] == Values(part)[..|part| - 6] && chk == Fold(chk0, Values(part))
    ensures ok ==> lower == (lower0 || AnyLower(part)) && upper == (upper0 || AnyUpper(part))
  {
    hide Fold, Xor, Step, Wide, Rev, IsLower, IsUpper;
    ok, lower, upper, chk := false, lower0, upper0, chk0;
    var i := 0;
    NoCase(part);
    FoldNone(chk0, part);
    while i < |part|
      invariant i <= |part| && InCharset(part[..i]) && chk == Fold(chk0, Values(part[..i]))
      invariant lower == (lower0 || AnyLower(part[..i])) && upper == (upper0 || AnyUpper(part[..i]))
      invariant forall j | 0 <= j < i && j + 6 < |part| :: data[j] == Values(part[..i])[j]
    {
      var v := Rev(part[i]);
      LowerNext(part, i);
      if IsLower(part[i]) { lower := true; }
      if IsUpper(part[i]) { upper := true; }
      if v.None? {
        NotInCharset(part, i);
        return;
      }
      ValuesNext(part, i);
      FoldOne(chk0, Values(part[..i]), v.value);
      chk := Xor(Step(chk), Wide(v.value));
      if i + 6 < |part| { data[i] := v.value; }
      i := i + 1;
    }
    assert part[..|part|] == part;
    ok := true;
  }

  lemma {:induction false} FoldNone(c: bv32, part: seq<byte>)
    ensures InCharset(part[..0]) && Fold(c, Values(part[..0])) == c
  {
    assert Values(part[..0]) == [];
  }

  /** `bech32_decode`. Without a separator the check of the human-readable part stops at the final
      zero of the string. */
  method DecodeString(hrp: array<byte>, data: array<byte>, dataMax: nat, s: seq<byte>) returns (ok: bool, hrpLen: nat, dataLen: nat)
    requires |s| <= hrp.Length && dataMax <= data.Length && hrp != data
    modifies hrp, data
    ensures ok == Decode(dataMax, s).Some?
    ensures ok ==> && hrpLen < hrp.Length && dataLen <= data.Length
                   && Decode(dataMax, s) == Some(Decoded(hrp[..hrpLen], data[..dataLen])) && hrp[hrpLen] == 0
  {
    hide Fold, Map, Rev, IsLower, IsUpper, Expand;
    ok, hrpLen, dataLen := false, 0, 0;
    if |s| < 8 || |s| > DECODE_MAX { return; }
    var n := FindTail(s);
    if n + 1 >= |s| || n < 6 { return; }
    if n > dataMax { return; }
    hrpLen, dataLen := |s| - 1 - n, n - 6;
    var readable, part := s[..hrpLen], s[|s| - n..];
    var lower, upper, chk;
    ok, lower, upper, chk := ReadHrp(hrp, readable);
    if !ok { return; }
    var chk1 := SumLows(readable, chk);
    ExpandIs(readable, chk, chk1);
    ok, lower, upper, chk := ReadData(data, part, chk1, lower, upper);
    if !ok { return; }
    FoldPlus(1, Expand(readable), Values(part));
    CasePlus(readable, part);
    ok := !(lower && upper) && chk == 1;
  }

  lemma {:induction false} ExpandIs(hrp: seq<byte>, chk: bv32, chk1: bv32)
    requires chk == Fold(1, Map(High, Map(ToLower, hrp)) + [0]) && chk1 == Fold(chk, Map(LowOf, hrp))
    ensures chk1 == Fold(1, Expand(hrp))
  {
    hide Fold, Map;
    FoldPlus(1, Map(High, Map(ToLower, hrp)) + [0], Map(LowOf, hrp));
  }

  lemma {:induction false} CasePlus(a: seq<byte>, b: seq<byte>)
    ensures AnyLower(a + b) == (AnyLower(a) || AnyLower(b)) && AnyUpper(a + b) == (AnyUpper(a) || AnyUpper(b))
  {
    hide IsLower, IsUpper;
    var s := a + b;
    assert forall i | 0 <= i < |a| :: s[i] == a[i];
    assert forall i | 0 <= i < |b| :: s[|a| + i] == b[i];
  }
}
