/** Strings that are known to be right: two test vectors of BIP-173, and the short addresses that
    the documentation gives for a lock argument. */
module KnownAnswers {
  import opened Words
  import opened Wrappers
  import opened Bech32
  import opened Bech32Text
  import opened Ledger
  import A = Address
  import R = Regroup

  // ---------- What pins a string down ----------

  /** Symbols and a checksum that bring the state to 1: six symbols that do are those that the encoder
      appends, and the decoder takes the string apart again. */
  lemma {:induction false} Pinned(hrp: seq<byte>, data: seq<byte>, sum: seq<byte>, dataMax: nat)
    requires Symbols(data) && Symbols(sum) && |sum| == 6 && Fold(1, Expand(hrp) + data + sum) == 1
    ensures var s := hrp + [SEPARATOR] + Chars(data) + Chars(sum);
            && Encoded(hrp, data) == s
            && (hrp != [] && Printable(hrp) && !AnyUpper(hrp) && |s| <= DECODE_MAX && |data| + 6 <= dataMax ==>
                 Decode(dataMax, s) == Some(Decoded(hrp, data)))
  {
    hide Fold, Expand, Decode, Chars, Encoded, Printable, AnyUpper, Symbols, Spelled;
    SumIsOnly(hrp, data, sum);
    CharsPlus(data, sum);
    var s := hrp + [SEPARATOR] + Chars(data) + Chars(sum);
    assert s == hrp + [SEPARATOR] + (Chars(data) + Chars(sum));
    SpelledNow(s, hrp, data);
    AcceptedExactly(dataMax, s, hrp, data);
  }

  lemma {:induction false} SpelledNow(s: seq<byte>, hrp: seq<byte>, data: seq<byte>)
    requires s == Encoded(hrp, data)
    ensures Spelled(s, hrp, data)
  {
    hide Encoded;
  }

  /** The state, piece by piece. */
  lemma {:induction false} Along(c: bv32, head: seq<byte>, p: seq<byte>, q: seq<byte>, r: seq<byte>, s: seq<byte>, t: seq<byte>, sum: seq<byte>)
    ensures Fold(c, head + (p + q + r + s + t) + sum) == Fold(Fold(Fold(Fold(Fold(Fold(Fold(c, head), p), q), r), s), t), sum)
  {
    hide Fold;
    FoldPlus(c, head + (p + q + r + s + t), sum);
    FoldPlus(c, head, p + q + r + s + t);
    FoldPlus(Fold(c, head), p + q + r + s, t);
    FoldPlus(Fold(c, head), p + q + r, s);
    FoldPlus(Fold(c, head), p + q, r);
    FoldPlus(Fold(c, head), p, q);
  }

  /** The characters, piece by piece. */
  lemma {:induction false} CharsAlong(p: seq<byte>, q: seq<byte>, r: seq<byte>, s: seq<byte>, t: seq<byte>)
    ensures Chars(p + q + r + s + t) == Chars(p) + Chars(q) + Chars(r) + Chars(s) + Chars(t)
  {
    hide Chars;
    CharsPlus(p + q + r + s, t);
    CharsPlus(p + q + r, s);
    CharsPlus(p + q, r);
    CharsPlus(p, q);
  }

  // ---------- All symbols ----------

  /** "abcdef" */
  const ABCDEF: seq<byte> := [97, 98, 99, 100, 101, 102]
  const ABCDEF_EXPANDED: seq<byte> := [3, 3, 3, 3, 3, 3, 0, 1, 2, 3, 4, 5, 6]

  /** All symbols in order. */
  const ALL1: seq<byte> := [0, 1, 2, 3, 4, 5, 6]
  const ALL2: seq<byte> := [7, 8, 9, 10, 11, 12, 13]
  const ALL3: seq<byte> := [14, 15, 16, 17, 18, 19]
  const ALL4: seq<byte> := [20, 21, 22, 23, 24, 25]
  const ALL5: seq<byte> := [26, 27, 28, 29, 30, 31]
  const ALL := ALL1 + ALL2 + ALL3 + ALL4 + ALL5
  const ALL_SUM: seq<byte> := [27, 0, 0, 0, 6, 14]

  /** "qpzry9x8gf2tvdw0s3jn54khce6mua7lmqqqxw", the characters. */
  const ALL_TEXT1: seq<byte> := [113, 112, 122, 114, 121, 57, 120]
  const ALL_TEXT2: seq<byte> := [56, 103, 102, 50, 116, 118, 100]
  const ALL_TEXT3: seq<byte> := [119, 48, 115, 51, 106, 110]
  const ALL_TEXT4: seq<byte> := [53, 52, 107, 104, 99, 101]
  const ALL_TEXT5: seq<byte> := [54, 109, 117, 97, 55, 108]
  const ALL_TEXT := ALL_TEXT1 + ALL_TEXT2 + ALL_TEXT3 + ALL_TEXT4 + ALL_TEXT5
  const ALL_TEXT_SUM: seq<byte> := [109, 113, 113, 113, 120, 119]

  lemma {:induction false} AllExpanded()
    ensures Expand(ABCDEF) == ABCDEF_EXPANDED
  {
  }

  lemma {:induction false} AllHead()
    ensures Fold(1, ABCDEF_EXPANDED) == 0x3be80e6a
  {
  }

  lemma {:induction false} AllFirst()
    ensures Fold(0x3be80e6a, ALL1) == 0x12be0710 && Fold(0x12be0710, ALL2) == 0x212c0d6a
  {
  }

  lemma {:induction false} AllNext()
    ensures Fold(0x212c0d6a, ALL3) == 0x28166541 && Fold(0x28166541, ALL4) == 0x3f0597ac
  {
  }

  lemma {:induction false} AllLast()
    ensures Fold(0x3f0597ac, ALL5) == 0x1a0d3656 && Fold(0x1a0d3656, ALL_SUM) == 1
  {
  }

  lemma {:induction false} AllSum()
    ensures Fold(1, Expand(ABCDEF) + ALL + ALL_SUM) == 1
  {
    hide Fold, Expand, ABCDEF, ABCDEF_EXPANDED, ALL1, ALL2, ALL3, ALL4, ALL5, ALL_SUM;
    AllExpanded();
    AllHead();
    AllFirst();
    AllNext();
    AllLast();
    Along(1, ABCDEF_EXPANDED, ALL1, ALL2, ALL3, ALL4, ALL5, ALL_SUM);
  }

  lemma {:induction false} AllChars()
    ensures Chars(ALL1) == ALL_TEXT1 && Chars(ALL2) == ALL_TEXT2 && Chars(ALL3) == ALL_TEXT3
  {
  }

  lemma {:induction false} AllMore()
    ensures Chars(ALL4) == ALL_TEXT4 && Chars(ALL5) == ALL_TEXT5 && Chars(ALL_SUM) == ALL_TEXT_SUM
  {
  }

  lemma {:induction false} AllText()
    ensures Chars(ALL) == ALL_TEXT && Chars(ALL_SUM) == ALL_TEXT_SUM && Symbols(ALL) && Symbols(ALL_SUM)
  {
    AllSymbols();
    hide Chars, Symbols, ALL1, ALL2, ALL3, ALL4, ALL5, ALL_SUM, ALL_TEXT1, ALL_TEXT2, ALL_TEXT3, ALL_TEXT4, ALL_TEXT5, ALL_TEXT_SUM;
    AllChars();
    AllMore();
    CharsAlong(ALL1, ALL2, ALL3, ALL4, ALL5);
  }

  lemma {:induction false} AllSymbols()
    ensures Symbols(ALL) && Symbols(ALL_SUM)
  {
    assert Symbols(ALL1) && Symbols(ALL2) && Symbols(ALL3) && Symbols(ALL4) && Symbols(ALL5);
    hide ALL1, ALL2, ALL3, ALL4, ALL5;
  }

  /** BIP-173's valid string with all symbols. */
  lemma {:induction false} AllVector()
    ensures Decode(84, ABCDEF + [SEPARATOR] + ALL_TEXT + ALL_TEXT_SUM) == Some(Decoded(ABCDEF, ALL))
  {
    AllText();
    AllSum();
    assert Printable(ABCDEF) && !AnyUpper(ABCDEF) && |ALL| == 32;
    hide *;
    Pinned(ABCDEF, ALL, ALL_SUM, 84);
  }

  /** "A12UEL5L" */
  const UPPER: seq<byte> := [65, 49, 50, 85, 69, 76, 53, 76]

  lemma {:induction false} UpperSum()
    ensures Expand([65]) == [3, 0, 1] && Fold(1, [3, 0, 1] + [10, 28, 25, 31, 20, 31]) == 1
  {
    assert Fold(1, [3, 0, 1]) == 0x8c01 && Fold(0x8c01, [10, 28, 25, 31, 20, 31]) == 1;
    hide Fold;
    FoldPlus(1, [3, 0, 1], [10, 28, 25, 31, 20, 31]);
  }

  lemma {:induction false} UpperValues()
    ensures InCharset(UPPER[2..]) && Values(UPPER[2..]) == [10, 28, 25, 31, 20, 31] && Tail(UPPER) == 6
    ensures Printable([65]) && !AnyLower([65] + UPPER[2..]) && Map(ToLower, [65]) == [97]
  {
    var part := UPPER[2..];
    assert part == [50, 85, 69, 76, 53, 76];
    assert UPPER == [65] + [SEPARATOR] + part;
    TailIs([65], part);
    hide Tail;
    assert Rev(part[0]) == Some(10) && Rev(part[1]) == Some(28) && Rev(part[2]) == Some(25) && Rev(part[3]) == Some(31) && Rev(part[4]) == Some(20);
  }

  /** BIP-173's valid upper-case string. */
  lemma {:induction false} UpperVector()
    ensures Decode(84, UPPER) == Some(Decoded([97], []))
  {
    UpperSum();
    UpperValues();
    assert UPPER[..1] == [65];
    assert Values(UPPER[2..])[..0] == [];
    hide Fold, Expand, Values, InCharset, Printable, AnyLower, AnyUpper, Tail, Map;
  }

  // ---------- Addresses ----------

  /** "ckb" and "ckt", and their checksums. */
  const CKB: seq<byte> := [99, 107, 98]
  const CKB_EXPANDED: seq<byte> := [3, 3, 3, 0, 3, 11, 2]
  const CKB_SUM: seq<byte> := [23, 28, 25, 6, 24, 3]
  const CKB_TEXT_SUM: seq<byte> := [104, 117, 101, 120, 99, 114]
  const CKT: seq<byte> := [99, 107, 116]
  const CKT_EXPANDED: seq<byte> := [3, 3, 3, 0, 3, 11, 20]
  const CKT_SUM: seq<byte> := [10, 25, 7, 25, 20, 31]
  const CKT_TEXT_SUM: seq<byte> := [50, 101, 56, 101, 53, 108]

  /** The lock argument 0x8d5520741f06a062543cdea9a21fc20d07ee29b0 behind its format and index, in pieces of five bytes. */
  const BYTES1: seq<nat> := [0x01, 0x00, 0x8d, 0x55, 0x20]
  const BYTES2: seq<nat> := [0x74, 0x1f, 0x06, 0xa0, 0x62]
  const BYTES3: seq<nat> := [0x54, 0x3c, 0xde, 0xa9, 0xa2]
  const BYTES4: seq<nat> := [0x1f, 0xc2, 0x0d, 0x07, 0xee]
  const BYTES5: seq<nat> := [0x29, 0xb0]
  const HASH: Hash20 := [0x8d, 0x55, 0x20, 0x74, 0x1f, 0x06, 0xa0, 0x62, 0x54, 0x3c, 0xde, 0xa9, 0xa2, 0x1f, 0xc2, 0x0d, 0x07, 0xee, 0x29, 0xb0]

  /** Their symbols, eight for each piece. */
  const NUMS1: seq<nat> := [0, 4, 0, 8, 26, 21, 9, 0]
  const NUMS2: seq<nat> := [14, 16, 15, 16, 13, 8, 3, 2]
  const NUMS3: seq<nat> := [10, 16, 30, 13, 29, 10, 13, 2]
  const NUMS4: seq<nat> := [3, 31, 1, 0, 26, 1, 31, 14]
  const NUMS5: seq<nat> := [5, 6, 24, 0]
  const SHORT1: seq<byte> := [0, 4, 0, 8, 26, 21, 9, 0]
  const SHORT2: seq<byte> := [14, 16, 15, 16, 13, 8, 3, 2]
  const SHORT3: seq<byte> := [10, 16, 30, 13, 29, 10, 13, 2]
  const SHORT4: seq<byte> := [3, 31, 1, 0, 26, 1, 31, 14]
  const SHORT5: seq<byte> := [5, 6, 24, 0]
  const SHORT := SHORT1 + SHORT2 + SHORT3 + SHORT4 + SHORT5

  /** "qyqg64fqws0sdgrz2s7da2dzrlpq6plw9xcq" */
  const SHORT_TEXT1: seq<byte> := [113, 121, 113, 103, 54, 52, 102, 113]
  const SHORT_TEXT2: seq<byte> := [119, 115, 48, 115, 100, 103, 114, 122]
  const SHORT_TEXT3: seq<byte> := [50, 115, 55, 100, 97, 50, 100, 122]
  const SHORT_TEXT4: seq<byte> := [114, 108, 112, 113, 54, 112, 108, 119]
  const SHORT_TEXT5: seq<byte> := [57, 120, 99, 113]
  const SHORT_TEXT := SHORT_TEXT1 + SHORT_TEXT2 + SHORT_TEXT3 + SHORT_TEXT4 + SHORT_TEXT5

  lemma {:induction false} MainHead()
    ensures Expand(CKB) == CKB_EXPANDED && Fold(1, CKB_EXPANDED) == 0x4dd3ddb
  {
  }

  lemma {:induction false} MainStart()
    ensures Fold(0x4dd3ddb, SHORT1) == 0x375d0b59
  {
  }

  lemma {:induction false} MainFirst()
    ensures Fold(0x375d0b59, SHORT2) == 0x114526d3
  {
  }

  lemma {:induction false} MainNext()
    ensures Fold(0x114526d3, SHORT3) == 0x1afe0966
  {
  }

  lemma {:induction false} MainMore()
    ensures Fold(0x1afe0966, SHORT4) == 0x129d117d
  {
  }

  lemma {:induction false} MainLast()
    ensures Fold(0x129d117d, SHORT5) == 0x32a6ca0d && Fold(0x32a6ca0d, CKB_SUM) == 1
  {
  }

  lemma {:induction false} MainSum()
    ensures Fold(1, Expand(CKB) + SHORT + CKB_SUM) == 1
  {
    hide Fold, Expand, CKB, CKB_EXPANDED, SHORT1, SHORT2, SHORT3, SHORT4, SHORT5, CKB_SUM;
    MainHead();
    MainStart();
    MainFirst();
    MainNext();
    MainMore();
    MainLast();
    Along(1, CKB_EXPANDED, SHORT1, SHORT2, SHORT3, SHORT4, SHORT5, CKB_SUM);
  }

  lemma {:induction false} TestHead()
    ensures Expand(CKT) == CKT_EXPANDED && Fold(1, CKT_EXPANDED) == 0x4dd3dcd
  {
  }

  lemma {:induction false} TestStart()
    ensures Fold(0x4dd3dcd, SHORT1) == 0x3d0c6b2c
  {
  }

  lemma {:induction false} TestFirst()
    ensures Fold(0x3d0c6b2c, SHORT2) == 0x363f7af5
  {
  }

  lemma {:induction false} TestNext()
    ensures Fold(0x363f7af5, SHORT3) == 0x2f980c52
  {
  }

  lemma {:induction false} TestMore()
    ensures Fold(0x2f980c52, SHORT4) == 0x35e86f1
  {
    assert Fold(0x2f980c52, [3, 31, 1, 0]) == 0x2fd31fd1 && Fold(0x2fd31fd1, [26, 1, 31, 14]) == 0x35e86f1;
    assert SHORT4 == [3, 31, 1, 0] + [26, 1, 31, 14];
    hide Fold;
    FoldPlus(0x2f980c52, [3, 31, 1, 0], [26, 1, 31, 14]);
  }

  lemma {:induction false} TestLast()
    ensures Fold(0x35e86f1, SHORT5) == 0xf10e7f7 && Fold(0xf10e7f7, CKT_SUM) == 1
  {
  }

  lemma {:induction false} TestSum()
    ensures Fold(1, Expand(CKT) + SHORT + CKT_SUM) == 1
  {
    hide Fold, Expand, CKT, CKT_EXPANDED, SHORT1, SHORT2, SHORT3, SHORT4, SHORT5, CKT_SUM;
    TestHead();
    TestStart();
    TestFirst();
    TestNext();
    TestMore();
    TestLast();
    Along(1, CKT_EXPANDED, SHORT1, SHORT2, SHORT3, SHORT4, SHORT5, CKT_SUM);
  }

  lemma {:induction false} ShortChars()
    ensures Chars(SHORT1) == SHORT_TEXT1 && Chars(SHORT2) == SHORT_TEXT2 && Chars(SHORT3) == SHORT_TEXT3
  {
  }

  lemma {:induction false} ShortMore()
    ensures Chars(SHORT4) == SHORT_TEXT4 && Chars(SHORT5) == SHORT_TEXT5
    ensures Chars(CKB_SUM) == CKB_TEXT_SUM && Chars(CKT_SUM) == CKT_TEXT_SUM
  {
  }

  lemma {:induction false} ShortSymbols()
    ensures Symbols(SHORT) && Symbols(CKB_SUM) && Symbols(CKT_SUM)
  {
    assert Symbols(SHORT1) && Symbols(SHORT2) && Symbols(SHORT3) && Symbols(SHORT4) && Symbols(SHORT5);
    hide SHORT1, SHORT2, SHORT3, SHORT4, SHORT5;
  }

  lemma {:induction false} ShortText()
    ensures Chars(SHORT) == SHORT_TEXT && Symbols(SHORT)
  {
    ShortSymbols();
    hide Chars, Symbols, SHORT1, SHORT2, SHORT3, SHORT4, SHORT5, SHORT_TEXT1, SHORT_TEXT2, SHORT_TEXT3, SHORT_TEXT4, SHORT_TEXT5;
    ShortChars();
    ShortMore();
    CharsAlong(SHORT1, SHORT2, SHORT3, SHORT4, SHORT5);
  }

  // The payload, regrouped.

  lemma {:induction false} NumsFit(xs: seq<nat>)
    requires forall i | 0 <= i < |xs| :: xs[i] < 32
    ensures R.Fits(xs, R.SYMBOL)
  {
    R.Bases();
    forall i | 0 <= i < |xs| ensures R.Num(R.BitsOf(xs[i], R.SYMBOL)) == xs[i] { A.ByteBitsFrom(xs[i], R.SYMBOL, 32); }
    hide R.Num, R.BitsOf;
  }

  lemma {:induction false} BytesFit(xs: seq<nat>)
    requires forall i | 0 <= i < |xs| :: xs[i] < 256
    ensures R.Fits(xs, R.BYTE)
  {
    R.Bases();
    forall i | 0 <= i < |xs| ensures R.Num(R.BitsOf(xs[i], R.BYTE)) == xs[i] { A.ByteBitsFrom(xs[i], R.BYTE, 256); }
    hide R.Num, R.BitsOf;
  }

  lemma {:induction false} Regrouped(xs: seq<nat>, ys: seq<nat>, rest: seq<nat>)
    requires |xs| == 5 && |ys| == 8 && (forall i | 0 <= i < |xs| :: xs[i] < 256) && (forall i | 0 <= i < |ys| :: ys[i] < 32)
    requires R.Number(0, xs, 256) == R.Number(0, ys, 32)
    ensures R.ToSymbols(xs + rest) == ys + R.ToSymbols(rest)
  {
    hide R.Number, R.ToSymbols, R.Fits;
    BytesFit(xs);
    NumsFit(ys);
    R.Block(xs, ys, rest);
  }

  lemma {:induction false} Numbers1()
    ensures R.Number(0, BYTES1, 256) == 0x1008d5520 == R.Number(0, NUMS1, 32)
  {
  }

  lemma {:induction false} Numbers2()
    ensures R.Number(0, BYTES2, 256) == 0x741f06a062 == R.Number(0, NUMS2, 32)
  {
  }

  lemma {:induction false} Numbers3()
    ensures R.Number(0, BYTES3, 256) == 0x543cdea9a2 == R.Number(0, NUMS3, 32)
  {
  }

  lemma {:induction false} Numbers4()
    ensures R.Number(0, BYTES4, 256) == 0x1fc20d07ee == R.Number(0, NUMS4, 32)
  {
  }
  lemma {:induction false} LastNumbers()
    ensures R.ToSymbols(BYTES5) == NUMS5
  {
    BytesFit(BYTES5);
    NumsFit(NUMS5);
    assert R.Padding(16) == 4;
    assert R.Number(0, NUMS5, 32) == 0x29b00 && R.Number(0, BYTES5, 256) == 0x29b0 && R.Shl(0x29b0, 4) == 0x29b00;
    hide R.Number, R.ToSymbols, R.Fits, R.Shl, R.Padding;
    R.SymbolsNumber(BYTES5, NUMS5);
  }

  lemma {:induction false} PayloadNumbers()
    ensures R.ToSymbols(BYTES1 + (BYTES2 + (BYTES3 + (BYTES4 + BYTES5)))) == NUMS1 + (NUMS2 + (NUMS3 + (NUMS4 + NUMS5)))
  {
    Numbers1();
    Numbers2();
    Numbers3();
    Numbers4();
    LastNumbers();
    hide R.Number, R.ToSymbols;
    Regrouped(BYTES1, NUMS1, BYTES2 + (BYTES3 + (BYTES4 + BYTES5)));
    Regrouped(BYTES2, NUMS2, BYTES3 + (BYTES4 + BYTES5));
    Regrouped(BYTES3, NUMS3, BYTES4 + BYTES5);
    Regrouped(BYTES4, NUMS4, BYTES5);
  }

  lemma {:induction false} PayloadBytes()
    ensures A.Bytes(A.Payload(A.Sighash(HASH))) == BYTES1 + (BYTES2 + (BYTES3 + (BYTES4 + BYTES5)))
  {
  }

  lemma {:induction false} NumsSymbols1()
    ensures A.SymbolsOf(NUMS1) == SHORT1 && A.SymbolsOf(NUMS2) == SHORT2
  {
  }

  lemma {:induction false} NumsSymbols2()
    ensures A.SymbolsOf(NUMS3) == SHORT3 && A.SymbolsOf(NUMS4) == SHORT4 && A.SymbolsOf(NUMS5) == SHORT5
  {
  }

  lemma {:induction false} NumsSymbols()
    ensures A.SymbolsOf(NUMS1 + (NUMS2 + (NUMS3 + (NUMS4 + NUMS5)))) == SHORT
  {
    NumsSymbols1();
    NumsSymbols2();
    hide SHORT1, SHORT2, SHORT3, SHORT4, SHORT5, NUMS1, NUMS2, NUMS3, NUMS4, NUMS5, A.Symbol;
  }

  lemma {:induction false} Rendering(mainnet: bool)
    ensures A.Rendered(mainnet, A.Sighash(HASH)) == Encoded(if mainnet then CKB else CKT, SHORT)
  {
    PayloadBytes();
    PayloadNumbers();
    NumsSymbols();
    assert A.Network(mainnet) == if mainnet then CKB else CKT;
    A.RenderedIs(mainnet, A.Sighash(HASH));
    hide *;
  }

  /** The addresses of the lock argument 0x8d5520741f06a062543cdea9a21fc20d07ee29b0 on both networks:
      "ckb1qyqg64fqws0sdgrz2s7da2dzrlpq6plw9xcqhuexcr" and
      "ckt1qyqg64fqws0sdgrz2s7da2dzrlpq6plw9xcq2e8e5l". */
  lemma {:induction false} ShortAddresses()
    ensures A.Rendered(true, A.Sighash(HASH)) == CKB + [SEPARATOR] + SHORT_TEXT + CKB_TEXT_SUM
    ensures A.Rendered(false, A.Sighash(HASH)) == CKT + [SEPARATOR] + SHORT_TEXT + CKT_TEXT_SUM
  {
    ShortText();
    ShortSymbols();
    ShortMore();
    Rendering(true);
    Rendering(false);
    MainSum();
    TestSum();
    assert |CKB_SUM| == |CKT_SUM| == 6;
    hide *;
    Pinned(CKB, SHORT, CKB_SUM, 84);
    Pinned(CKT, SHORT, CKT_SUM, 84);
  }
}
