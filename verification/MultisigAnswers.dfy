/** The addresses that the tests show for two multisig locks. */
module MultisigAnswers {
  import opened Words
  import opened Wrappers
  import opened Bech32
  import opened Bech32Text
  import opened Ledger
  import opened KnownAnswers
  import A = Address
  import R = Regroup

  // ---------- Piece by piece ----------

  /** These bytes are shown as these characters, whose symbols take the checksum from `c` to `d`. */
  predicate Shows(c: bv32, bytes: seq<nat>, text: seq<byte>, d: bv32) {
    var data := A.SymbolsOf(R.ToSymbols(bytes));
    Symbols(data) && Chars(data) == text && Fold(c, data) == d
  }

  /** Five bytes are eight symbols. */
  predicate Alike(xs: seq<nat>, ys: seq<nat>) {
    && |xs| == 5 && |ys| == 8 && (forall i | 0 <= i < |xs| :: xs[i] < 256) && (forall i | 0 <= i < |ys| :: ys[i] < 32)
    && R.Number(0, xs, 256) == R.Number(0, ys, 32)
  }

  lemma {:induction false} FiveBytes(a: nat, b: nat, c: nat, d: nat, e: nat)
    ensures R.Number(0, [a, b, c, d, e], 256) == 0x1_0000_0000 * a + 0x100_0000 * b + 0x1_0000 * c + 0x100 * d + e
  {
    NumberStep(0, a, [b, c, d, e], 256);
    NumberStep(a, b, [c, d, e], 256);
    NumberStep(a * 256 + b, c, [d, e], 256);
    NumberStep((a * 256 + b) * 256 + c, d, [e], 256);
    NumberStep(((a * 256 + b) * 256 + c) * 256 + d, e, [], 256);
    hide R.Number;
  }

  lemma {:induction false} NumberStep(v: nat, x: nat, rest: seq<nat>, base: nat)
    ensures v * base + x >= 0 && R.Number(v, [x] + rest, base) == R.Number(v * base + x, rest, base)
    ensures rest == [] ==> R.Number(v, [x], base) == v * base + x
  {
    assert ([x] + rest)[1..] == rest && [x][1..] == [];
  }

  lemma {:induction false} EightSymbols(a: nat, b: nat, c: nat, d: nat, e: nat, f: nat, g: nat, h: nat)
    ensures R.Number(0, [a, b, c, d, e, f, g, h], 32)
         == 0x8_0000_0000 * a + 0x4000_0000 * b + 0x200_0000 * c + 0x10_0000 * d + 0x8000 * e + 0x400 * f + 0x20 * g + h
  {
    var n4 := ((a * 32 + b) * 32 + c) * 32 + d;
    NumberStep(0, a, [b, c, d, e, f, g, h], 32);
    NumberStep(a, b, [c, d, e, f, g, h], 32);
    NumberStep(a * 32 + b, c, [d, e, f, g, h], 32);
    NumberStep((a * 32 + b) * 32 + c, d, [e, f, g, h], 32);
    NumberStep(n4, e, [f, g, h], 32);
    NumberStep(n4 * 32 + e, f, [g, h], 32);
    NumberStep((n4 * 32 + e) * 32 + f, g, [h], 32);
    NumberStep(((n4 * 32 + e) * 32 + f) * 32 + g, h, [], 32);
    hide R.Number;
  }

  predicate Shaped(ys: seq<nat>, zs: seq<byte>) {
    A.SymbolsOf(ys) == zs && Symbols(zs)
  }

  /** A piece in front. */
  lemma {:induction false} Behind(c: bv32, xs: seq<nat>, ys: seq<nat>, zs: seq<byte>, ts: seq<byte>, c1: bv32,
                                  bytes: seq<nat>, text: seq<byte>, d: bv32)
    requires Alike(xs, ys) && Shaped(ys, zs) && Chars(zs) == ts && Fold(c, zs) == c1 && Shows(c1, bytes, text, d)
    ensures Shows(c, xs + bytes, ts + text, d)
  {
    var rest := R.ToSymbols(bytes);
    var data := A.SymbolsOf(rest);
    Front(xs, ys, bytes);
    SymbolsPlus(ys, rest);
    assert A.SymbolsOf(R.ToSymbols(xs + bytes)) == zs + data;
    hide R.Number, R.ToSymbols, A.SymbolsOf, Chars, Fold, Alike;
    CharsPlus(zs, data);
    FoldPlus(c, zs, data);
  }

  lemma {:induction false} Front(xs: seq<nat>, ys: seq<nat>, bytes: seq<nat>)
    requires Alike(xs, ys)
    ensures R.ToSymbols(xs + bytes) == ys + R.ToSymbols(bytes)
  {
    hide R.Number, R.ToSymbols;
    Regrouped(xs, ys, bytes);
  }

  lemma {:induction false} SymbolsPlus(xs: seq<nat>, ys: seq<nat>)
    ensures A.SymbolsOf(xs + ys) == A.SymbolsOf(xs) + A.SymbolsOf(ys)
  {
    hide A.Symbol;
  }

  /** The state behind "ckb". */
  const HEAD: bv32 := 0x4dd3ddb

  lemma {:induction false} Shown(bytes: seq<nat>, text: seq<byte>, sum: seq<byte>, mid: bv32, lock: A.Lock)
    requires A.Bytes(A.Payload(lock)) == bytes && Shows(HEAD, bytes, text, mid) && Symbols(sum) && |sum| == 6 && Fold(mid, sum) == 1
    ensures A.Rendered(true, lock) == CKB + [SEPARATOR] + text + Chars(sum)
  {
    var data := A.SymbolsOf(R.ToSymbols(bytes));
    MainHead();
    assert A.Network(true) == CKB;
    assert Symbols(data) && Chars(data) == text && Fold(HEAD, data) == mid;
    hide *;
    A.RenderedIs(true, lock);
    FoldPlus(1, Expand(CKB), data);
    FoldPlus(1, Expand(CKB) + data, sum);
    Pinned(CKB, data, sum, 84);
  }

  // ---------- Without a period ----------

  const BRIEF_ARG: LockArg := [0xe5, 0x26, 0x0d, 0x83, 0x9a, 0x78, 0x6a, 0xc2, 0xa9, 0x09, 0x18, 0x1d, 0xf9, 0xa4, 0x23, 0xf1, 0xef, 0xbe, 0x86,
    0x3d, 0x00, 0x00, 0x00, 0x00, 0x00, 0x00, 0x00, 0x00]

  /** The payload in pieces of five bytes, their symbols, and the characters. */
  const BRIEF_BYTES1: seq<nat> := [0x01, 0x01, 0xe5, 0x26, 0x0d]
  const BRIEF_BYTES2: seq<nat> := [0x83, 0x9a, 0x78, 0x6a, 0xc2]
  const BRIEF_BYTES3: seq<nat> := [0xa9, 0x09, 0x18, 0x1d, 0xf9]
  const BRIEF_BYTES4: seq<nat> := [0xa4, 0x23, 0xf1, 0xef, 0xbe]
  const BRIEF_BYTES5: seq<nat> := [0x86, 0x3d]
  const BRIEF_NUMS1: seq<nat> := [0, 4, 0, 30, 10, 9, 16, 13]
  const BRIEF_NUMS2: seq<nat> := [16, 14, 13, 7, 16, 26, 22, 2]
  const BRIEF_NUMS3: seq<nat> := [21, 4, 4, 17, 16, 7, 15, 25]
  const BRIEF_NUMS4: seq<nat> := [20, 16, 17, 31, 3, 27, 29, 30]
  const BRIEF_NUMS5: seq<nat> := [16, 24, 30, 16]
  const BRIEF_DATA1: seq<byte> := [0, 4, 0, 30, 10, 9, 16, 13]
  const BRIEF_DATA2: seq<byte> := [16, 14, 13, 7, 16, 26, 22, 2]
  const BRIEF_DATA3: seq<byte> := [21, 4, 4, 17, 16, 7, 15, 25]
  const BRIEF_DATA4: seq<byte> := [20, 16, 17, 31, 3, 27, 29, 30]
  const BRIEF_DATA5: seq<byte> := [16, 24, 30, 16]
  const BRIEF_TEXT1: seq<byte> := [113, 121, 113, 55, 50, 102, 115, 100]
  const BRIEF_TEXT2: seq<byte> := [115, 119, 100, 56, 115, 54, 107, 122]
  const BRIEF_TEXT3: seq<byte> := [52, 121, 121, 51, 115, 56, 48, 101]
  const BRIEF_TEXT4: seq<byte> := [53, 115, 51, 108, 114, 109, 97, 55]
  const BRIEF_TEXT5: seq<byte> := [115, 99, 55, 115]
  const BRIEF_SUM: seq<byte> := [8, 4, 9, 24, 3, 17]
  const BRIEF_TEXT_SUM: seq<byte> := [103, 121, 102, 99, 114, 51]

  /** "qyq72fsdswd8s6kz4yy3s80e5s3lrma7sc7s" */
  const BRIEF_TEXT := BRIEF_TEXT1 + (BRIEF_TEXT2 + (BRIEF_TEXT3 + (BRIEF_TEXT4 + BRIEF_TEXT5)))

  lemma {:induction false} BriefNumbers1()
    ensures Alike(BRIEF_BYTES1, BRIEF_NUMS1) && Alike(BRIEF_BYTES2, BRIEF_NUMS2)
  {
    hide R.Number;
    FiveBytes(0x01, 0x01, 0xe5, 0x26, 0x0d);
    EightSymbols(0, 4, 0, 30, 10, 9, 16, 13);
    FiveBytes(0x83, 0x9a, 0x78, 0x6a, 0xc2);
    EightSymbols(16, 14, 13, 7, 16, 26, 22, 2);
  }

  lemma {:induction false} BriefNumbers2()
    ensures Alike(BRIEF_BYTES3, BRIEF_NUMS3) && Alike(BRIEF_BYTES4, BRIEF_NUMS4)
  {
    hide R.Number;
    FiveBytes(0xa9, 0x09, 0x18, 0x1d, 0xf9);
    EightSymbols(21, 4, 4, 17, 16, 7, 15, 25);
    FiveBytes(0xa4, 0x23, 0xf1, 0xef, 0xbe);
    EightSymbols(20, 16, 17, 31, 3, 27, 29, 30);
  }

  lemma {:induction false} BriefData1()
    ensures Shaped(BRIEF_NUMS1, BRIEF_DATA1) && Shaped(BRIEF_NUMS2, BRIEF_DATA2)
  {
  }

  lemma {:induction false} BriefData2()
    ensures Shaped(BRIEF_NUMS3, BRIEF_DATA3) && Shaped(BRIEF_NUMS4, BRIEF_DATA4)
  {
  }

  lemma {:induction false} BriefChars1()
    ensures Chars(BRIEF_DATA1) == BRIEF_TEXT1 && Chars(BRIEF_DATA2) == BRIEF_TEXT2 && Chars(BRIEF_DATA3) == BRIEF_TEXT3 && Chars(BRIEF_DATA4) == BRIEF_TEXT4
  {
  }

  lemma {:induction false} BriefFold1()
    ensures Fold(0x4dd3ddb, BRIEF_DATA1) == 0x36357874 && Fold(0x36357874, BRIEF_DATA2) == 0x23348522
  {
  }

  lemma {:induction false} BriefFold2()
    ensures Fold(0x23348522, BRIEF_DATA3) == 0x14e58261 && Fold(0x14e58261, BRIEF_DATA4) == 0x2e5bc1e7
  {
  }

  lemma {:induction false} BriefTail()
    ensures R.ToSymbols(BRIEF_BYTES5) == BRIEF_NUMS5
  {
    BytesFit(BRIEF_BYTES5);
    NumsFit(BRIEF_NUMS5);
    assert R.Padding(16) == 4;
    assert R.Number(0, BRIEF_NUMS5, 32) == 0x863d0 && R.Number(0, BRIEF_BYTES5, 256) == 0x863d && R.Shl(0x863d, 4) == 0x863d0;
    hide R.Number, R.ToSymbols, R.Fits, R.Shl, R.Padding;
    R.SymbolsNumber(BRIEF_BYTES5, BRIEF_NUMS5);
  }

  lemma {:induction false} BriefLast()
    ensures Shows(0x2e5bc1e7, BRIEF_BYTES5, BRIEF_TEXT5, 0x28a365ac)
  {
    assert A.SymbolsOf(BRIEF_NUMS5) == BRIEF_DATA5 && Symbols(BRIEF_DATA5);
    assert Chars(BRIEF_DATA5) == BRIEF_TEXT5 && Fold(0x2e5bc1e7, BRIEF_DATA5) == 0x28a365ac;
    hide A.SymbolsOf, Chars, Fold, R.ToSymbols, Symbols;
    BriefTail();
  }

  lemma {:induction false} BriefSum()
    ensures Symbols(BRIEF_SUM) && |BRIEF_SUM| == 6 && Fold(0x28a365ac, BRIEF_SUM) == 1
  {
  }

  lemma {:induction false} BriefSumChars()
    ensures Chars(BRIEF_SUM) == BRIEF_TEXT_SUM
  {
  }

  lemma {:induction false} BriefPeriod()
    ensures !A.HasPeriod(BRIEF_ARG)
  {
  }

  const BRIEF_HASH: seq<u8> := [0xe5, 0x26, 0x0d, 0x83, 0x9a, 0x78, 0x6a, 0xc2, 0xa9, 0x09, 0x18, 0x1d, 0xf9, 0xa4, 0x23, 0xf1, 0xef, 0xbe, 0x86, 0x3d]

  lemma {:induction false} BriefPayload()
    ensures A.Payload(A.Multisig(BRIEF_ARG)) == [0x01, 0x01] + BRIEF_HASH
  {
    BriefPeriod();
    assert BRIEF_ARG[..20] == BRIEF_HASH;
    hide A.HasPeriod, BRIEF_ARG, BRIEF_HASH, MultisigLock;
  }

  lemma {:induction false} BriefHead()
    ensures A.Bytes([0x01, 0x01] + BRIEF_HASH) == BRIEF_BYTES1 + (BRIEF_BYTES2 + (BRIEF_BYTES3 + (BRIEF_BYTES4 + BRIEF_BYTES5)))
  {
  }

  lemma {:induction false} BriefBytes()
    ensures A.Bytes(A.Payload(A.Multisig(BRIEF_ARG))) == BRIEF_BYTES1 + (BRIEF_BYTES2 + (BRIEF_BYTES3 + (BRIEF_BYTES4 + BRIEF_BYTES5)))
  {
    hide *;
    BriefPayload();
    BriefHead();
  }

  lemma {:induction false} BriefFrom1()
    ensures Shows(0x4dd3ddb, BRIEF_BYTES1 + (BRIEF_BYTES2 + (BRIEF_BYTES3 + (BRIEF_BYTES4 + BRIEF_BYTES5))), BRIEF_TEXT1 + (BRIEF_TEXT2 + (BRIEF_TEXT3 +
          (BRIEF_TEXT4 + BRIEF_TEXT5))), 0x28a365ac)
  {
    hide *;
    BriefLast();
    BriefChars1();
    BriefNumbers1();
    BriefData1();
    BriefFold1();
    BriefNumbers2();
    BriefData2();
    BriefFold2();
    Behind(0x14e58261, BRIEF_BYTES4, BRIEF_NUMS4, BRIEF_DATA4, BRIEF_TEXT4, 0x2e5bc1e7,
           BRIEF_BYTES5, BRIEF_TEXT5, 0x28a365ac);
    Behind(0x23348522, BRIEF_BYTES3, BRIEF_NUMS3, BRIEF_DATA3, BRIEF_TEXT3, 0x14e58261,
           BRIEF_BYTES4 + BRIEF_BYTES5, BRIEF_TEXT4 + BRIEF_TEXT5, 0x28a365ac);
    Behind(0x36357874, BRIEF_BYTES2, BRIEF_NUMS2, BRIEF_DATA2, BRIEF_TEXT2, 0x23348522,
           BRIEF_BYTES3 + (BRIEF_BYTES4 + BRIEF_BYTES5), BRIEF_TEXT3 + (BRIEF_TEXT4 + BRIEF_TEXT5), 0x28a365ac);
    Behind(0x4dd3ddb, BRIEF_BYTES1, BRIEF_NUMS1, BRIEF_DATA1, BRIEF_TEXT1, 0x36357874,
           BRIEF_BYTES2 + (BRIEF_BYTES3 + (BRIEF_BYTES4 + BRIEF_BYTES5)), BRIEF_TEXT2 + (BRIEF_TEXT3 + (BRIEF_TEXT4 + BRIEF_TEXT5)), 0x28a365ac);
  }

  /** The multisig lock of 0xe5260d839a786ac2a909181df9a423f1efbe863d is shown as
      "ckb1qyq72fsdswd8s6kz4yy3s80e5s3lrma7sc7sgyfcr3". */
  lemma {:induction false} BriefAddress()
    ensures A.Rendered(true, A.Multisig(BRIEF_ARG)) == CKB + [SEPARATOR] + BRIEF_TEXT + BRIEF_TEXT_SUM
  {
    assert HEAD == 0x4dd3ddb;
    hide *;
    BriefBytes();
    BriefFrom1();
    BriefSum();
    BriefSumChars();
    Shown(BRIEF_BYTES1 + (BRIEF_BYTES2 + (BRIEF_BYTES3 + (BRIEF_BYTES4 + BRIEF_BYTES5))), BRIEF_TEXT, BRIEF_SUM, 0x28a365ac, A.Multisig(BRIEF_ARG));
  }

  // ---------- With a period ----------

  const LONG_ARG: LockArg := [0xe5, 0x26, 0x0d, 0x83, 0x9a, 0x78, 0x6a, 0xc2, 0xa9, 0x09, 0x18, 0x1d, 0xf9, 0xa4, 0x23, 0xf1, 0xef, 0xbe, 0x86, 0x3a,
    0x01, 0x02, 0x03, 0x04, 0x05, 0x06, 0x07, 0x08]

  /** The payload in pieces of five bytes, their symbols, and the characters. */
  const LONG_BYTES1: seq<nat> := [0x04, 0x5c, 0x50, 0x69, 0xeb]
  const LONG_BYTES2: seq<nat> := [0x08, 0x57, 0xef, 0xc6, 0x5e]
  const LONG_BYTES3: seq<nat> := [0x1b, 0xca, 0x0c, 0x07, 0xdf]
  const LONG_BYTES4: seq<nat> := [0x34, 0xc3, 0x16, 0x63, 0xb3]
  const LONG_BYTES5: seq<nat> := [0x62, 0x2f, 0xd3, 0x87, 0x6c]
  const LONG_BYTES6: seq<nat> := [0x87, 0x63, 0x20, 0xfc, 0x96]
  const LONG_BYTES7: seq<nat> := [0x34, 0xe2, 0xa8, 0xe5, 0x26]
  const LONG_BYTES8: seq<nat> := [0x0d, 0x83, 0x9a, 0x78, 0x6a]
  const LONG_BYTES9: seq<nat> := [0xc2, 0xa9, 0x09, 0x18, 0x1d]
  const LONG_BYTES10: seq<nat> := [0xf9, 0xa4, 0x23, 0xf1, 0xef]
  const LONG_BYTES11: seq<nat> := [0xbe, 0x86, 0x3a, 0x01, 0x02]
  const LONG_BYTES12: seq<nat> := [0x03, 0x04, 0x05, 0x06, 0x07]
  const LONG_BYTES13: seq<nat> := [0x08]
  const LONG_NUMS1: seq<nat> := [0, 17, 14, 5, 0, 26, 15, 11]
  const LONG_NUMS2: seq<nat> := [1, 1, 11, 30, 31, 17, 18, 30]
  const LONG_NUMS3: seq<nat> := [3, 15, 5, 0, 24, 1, 30, 31]
  const LONG_NUMS4: seq<nat> := [6, 19, 1, 17, 12, 24, 29, 19]
  const LONG_NUMS5: seq<nat> := [12, 8, 23, 29, 7, 1, 27, 12]
  const LONG_NUMS6: seq<nat> := [16, 29, 17, 18, 1, 31, 4, 22]
  const LONG_NUMS7: seq<nat> := [6, 19, 17, 10, 17, 25, 9, 6]
  const LONG_NUMS8: seq<nat> := [1, 22, 1, 25, 20, 30, 3, 10]
  const LONG_NUMS9: seq<nat> := [24, 10, 20, 16, 18, 6, 0, 29]
  const LONG_NUMS10: seq<nat> := [31, 6, 18, 2, 7, 28, 15, 15]
  const LONG_NUMS11: seq<nat> := [23, 26, 3, 3, 20, 0, 8, 2]
  const LONG_NUMS12: seq<nat> := [0, 12, 2, 0, 10, 1, 16, 7]
  const LONG_NUMS13: seq<nat> := [1, 0]
  const LONG_DATA1: seq<byte> := [0, 17, 14, 5, 0, 26, 15, 11]
  const LONG_DATA2: seq<byte> := [1, 1, 11, 30, 31, 17, 18, 30]
  const LONG_DATA3: seq<byte> := [3, 15, 5, 0, 24, 1, 30, 31]
  const LONG_DATA4: seq<byte> := [6, 19, 1, 17, 12, 24, 29, 19]
  const LONG_DATA5: seq<byte> := [12, 8, 23, 29, 7, 1, 27, 12]
  const LONG_DATA6: seq<byte> := [16, 29, 17, 18, 1, 31, 4, 22]
  const LONG_DATA7: seq<byte> := [6, 19, 17, 10, 17, 25, 9, 6]
  const LONG_DATA8: seq<byte> := [1, 22, 1, 25, 20, 30, 3, 10]
  const LONG_DATA9: seq<byte> := [24, 10, 20, 16, 18, 6, 0, 29]
  const LONG_DATA10: seq<byte> := [31, 6, 18, 2, 7, 28, 15, 15]
  const LONG_DATA11: seq<byte> := [23, 26, 3, 3, 20, 0, 8, 2]
  const LONG_DATA12: seq<byte> := [0, 12, 2, 0, 10, 1, 16, 7]
  const LONG_DATA13: seq<byte> := [1, 0]
  const LONG_TEXT1: seq<byte> := [113, 51, 119, 57, 113, 54, 48, 116]
  const LONG_TEXT2: seq<byte> := [112, 112, 116, 55, 108, 51, 106, 55]
  const LONG_TEXT3: seq<byte> := [114, 48, 57, 113, 99, 112, 55, 108]
  const LONG_TEXT4: seq<byte> := [120, 110, 112, 51, 118, 99, 97, 110]
  const LONG_TEXT5: seq<byte> := [118, 103, 104, 97, 56, 112, 109, 118]
  const LONG_TEXT6: seq<byte> := [115, 97, 51, 106, 112, 108, 121, 107]
  const LONG_TEXT7: seq<byte> := [120, 110, 51, 50, 51, 101, 102, 120]
  const LONG_TEXT8: seq<byte> := [112, 107, 112, 101, 53, 55, 114, 50]
  const LONG_TEXT9: seq<byte> := [99, 50, 53, 115, 106, 120, 113, 97]
  const LONG_TEXT10: seq<byte> := [108, 120, 106, 122, 56, 117, 48, 48]
  const LONG_TEXT11: seq<byte> := [104, 54, 114, 114, 53, 113, 103, 122]
  const LONG_TEXT12: seq<byte> := [113, 118, 122, 113, 50, 112, 115, 56]
  const LONG_TEXT13: seq<byte> := [112, 113]
  const LONG_SUM: seq<byte> := [19, 11, 13, 10, 24, 18]
  const LONG_TEXT_SUM: seq<byte> := [110, 116, 100, 50, 99, 106]

  /** "q3w9q60tppt7l3j7r09qcp7lxnp3vcanvgha8pmvsa3jplykxn323efxpkpe57r2c25sjxqalxjz8u00h6rr5qgzqvzq2ps8pq" */
  const LONG_TEXT := LONG_TEXT1 + (LONG_TEXT2 + (LONG_TEXT3 + (LONG_TEXT4 + (LONG_TEXT5 + (LONG_TEXT6 + (LONG_TEXT7 + (LONG_TEXT8 + (LONG_TEXT9 +
        (LONG_TEXT10 + (LONG_TEXT11 + (LONG_TEXT12 + LONG_TEXT13)))))))))))

  lemma {:induction false} LongNumbers1()
    ensures Alike(LONG_BYTES1, LONG_NUMS1) && Alike(LONG_BYTES2, LONG_NUMS2)
  {
    hide R.Number;
    FiveBytes(0x04, 0x5c, 0x50, 0x69, 0xeb);
    EightSymbols(0, 17, 14, 5, 0, 26, 15, 11);
    FiveBytes(0x08, 0x57, 0xef, 0xc6, 0x5e);
    EightSymbols(1, 1, 11, 30, 31, 17, 18, 30);
  }

  lemma {:induction false} LongNumbers2()
    ensures Alike(LONG_BYTES3, LONG_NUMS3) && Alike(LONG_BYTES4, LONG_NUMS4)
  {
    hide R.Number;
    FiveBytes(0x1b, 0xca, 0x0c, 0x07, 0xdf);
    EightSymbols(3, 15, 5, 0, 24, 1, 30, 31);
    FiveBytes(0x34, 0xc3, 0x16, 0x63, 0xb3);
    EightSymbols(6, 19, 1, 17, 12, 24, 29, 19);
  }

  lemma {:induction false} LongNumbers3()
    ensures Alike(LONG_BYTES5, LONG_NUMS5) && Alike(LONG_BYTES6, LONG_NUMS6)
  {
    hide R.Number;
    FiveBytes(0x62, 0x2f, 0xd3, 0x87, 0x6c);
    EightSymbols(12, 8, 23, 29, 7, 1, 27, 12);
    FiveBytes(0x87, 0x63, 0x20, 0xfc, 0x96);
    EightSymbols(16, 29, 17, 18, 1, 31, 4, 22);
  }

  lemma {:induction false} LongNumbers4()
    ensures Alike(LONG_BYTES7, LONG_NUMS7) && Alike(LONG_BYTES8, LONG_NUMS8)
  {
    hide R.Number;
    FiveBytes(0x34, 0xe2, 0xa8, 0xe5, 0x26);
    EightSymbols(6, 19, 17, 10, 17, 25, 9, 6);
    FiveBytes(0x0d, 0x83, 0x9a, 0x78, 0x6a);
    EightSymbols(1, 22, 1, 25, 20, 30, 3, 10);
  }

  lemma {:induction false} LongNumbers5()
    ensures Alike(LONG_BYTES9, LONG_NUMS9) && Alike(LONG_BYTES10, LONG_NUMS10)
  {
    hide R.Number;
    FiveBytes(0xc2, 0xa9, 0x09, 0x18, 0x1d);
    EightSymbols(24, 10, 20, 16, 18, 6, 0, 29);
    FiveBytes(0xf9, 0xa4, 0x23, 0xf1, 0xef);
    EightSymbols(31, 6, 18, 2, 7, 28, 15, 15);
  }

  lemma {:induction false} LongNumbers6()
    ensures Alike(LONG_BYTES11, LONG_NUMS11) && Alike(LONG_BYTES12, LONG_NUMS12)
  {
    hide R.Number;
    FiveBytes(0xbe, 0x86, 0x3a, 0x01, 0x02);
    EightSymbols(23, 26, 3, 3, 20, 0, 8, 2);
    FiveBytes(0x03, 0x04, 0x05, 0x06, 0x07);
    EightSymbols(0, 12, 2, 0, 10, 1, 16, 7);
  }

  lemma {:induction false} LongData1()
    ensures Shaped(LONG_NUMS1, LONG_DATA1) && Shaped(LONG_NUMS2, LONG_DATA2)
  {
  }

  lemma {:induction false} LongData2()
    ensures Shaped(LONG_NUMS3, LONG_DATA3) && Shaped(LONG_NUMS4, LONG_DATA4)
  {
  }

  lemma {:induction false} LongData3()
    ensures Shaped(LONG_NUMS5, LONG_DATA5) && Shaped(LONG_NUMS6, LONG_DATA6)
  {
  }

  lemma {:induction false} LongData4()
    ensures Shaped(LONG_NUMS7, LONG_DATA7) && Shaped(LONG_NUMS8, LONG_DATA8)
  {
  }

  lemma {:induction false} LongData5()
    ensures Shaped(LONG_NUMS9, LONG_DATA9) && Shaped(LONG_NUMS10, LONG_DATA10)
  {
  }

  lemma {:induction false} LongData6()
    ensures Shaped(LONG_NUMS11, LONG_DATA11) && Shaped(LONG_NUMS12, LONG_DATA12)
  {
  }

  lemma {:induction false} LongChars1()
    ensures Chars(LONG_DATA1) == LONG_TEXT1 && Chars(LONG_DATA2) == LONG_TEXT2 && Chars(LONG_DATA3) == LONG_TEXT3 && Chars(LONG_DATA4) == LONG_TEXT4
  {
  }

  lemma {:induction false} LongChars2()
    ensures Chars(LONG_DATA5) == LONG_TEXT5 && Chars(LONG_DATA6) == LONG_TEXT6 && Chars(LONG_DATA7) == LONG_TEXT7 && Chars(LONG_DATA8) == LONG_TEXT8
  {
  }

  lemma {:induction false} LongChars3()
    ensures Chars(LONG_DATA9) == LONG_TEXT9 && Chars(LONG_DATA10) == LONG_TEXT10 && Chars(LONG_DATA11) == LONG_TEXT11 && Chars(LONG_DATA12) == LONG_TEXT12
  {
  }

  lemma {:induction false} LongFold1()
    ensures Fold(0x4dd3ddb, LONG_DATA1) == 0x245f1b69 && Fold(0x245f1b69, LONG_DATA2) == 0x1e791b24
  {
  }

  lemma {:induction false} LongFold2()
    ensures Fold(0x1e791b24, LONG_DATA3) == 0x26c32360 && Fold(0x26c32360, LONG_DATA4) == 0x3b2017f
  {
  }

  lemma {:induction false} LongFold3()
    ensures Fold(0x3b2017f, LONG_DATA5) == 0x29c21007 && Fold(0x29c21007, LONG_DATA6) == 0x2f3458c4
  {
  }

  lemma {:induction false} LongFold4()
    ensures Fold(0x2f3458c4, LONG_DATA7) == 0xa7eaa1a && Fold(0xa7eaa1a, LONG_DATA8) == 0x4411190
  {
  }

  lemma {:induction false} LongFold5()
    ensures Fold(0x4411190, LONG_DATA9) == 0x10d8f31a && Fold(0x10d8f31a, LONG_DATA10) == 0x89a2036
  {
  }

  lemma {:induction false} LongFold6()
    ensures Fold(0x89a2036, LONG_DATA11) == 0x136ccf9c && Fold(0x136ccf9c, LONG_DATA12) == 0x1d4ed093
  {
  }

  lemma {:induction false} LongTail()
    ensures R.ToSymbols(LONG_BYTES13) == LONG_NUMS13
  {
    BytesFit(LONG_BYTES13);
    NumsFit(LONG_NUMS13);
    assert R.Padding(8) == 2;
    assert R.Number(0, LONG_NUMS13, 32) == 0x20 && R.Number(0, LONG_BYTES13, 256) == 0x8 && R.Shl(0x8, 2) == 0x20;
    hide R.Number, R.ToSymbols, R.Fits, R.Shl, R.Padding;
    R.SymbolsNumber(LONG_BYTES13, LONG_NUMS13);
  }

  lemma {:induction false} LongLast()
    ensures Shows(0x1d4ed093, LONG_BYTES13, LONG_TEXT13, 0x1fd33044)
  {
    assert A.SymbolsOf(LONG_NUMS13) == LONG_DATA13 && Symbols(LONG_DATA13);
    assert Chars(LONG_DATA13) == LONG_TEXT13 && Fold(0x1d4ed093, LONG_DATA13) == 0x1fd33044;
    hide A.SymbolsOf, Chars, Fold, R.ToSymbols, Symbols;
    LongTail();
  }

  lemma {:induction false} LongSum()
    ensures Symbols(LONG_SUM) && |LONG_SUM| == 6 && Fold(0x1fd33044, LONG_SUM) == 1
  {
  }

  lemma {:induction false} LongSumChars()
    ensures Chars(LONG_SUM) == LONG_TEXT_SUM
  {
  }

  lemma {:induction false} LongPeriod()
    ensures A.HasPeriod(LONG_ARG)
  {
    assert LONG_ARG[20] != 0;
  }

  lemma {:induction false} LongHead()
    ensures A.Bytes([0x04] + MultisigLock()) == LONG_BYTES1 + (LONG_BYTES2 + (LONG_BYTES3 + (LONG_BYTES4 + (LONG_BYTES5 + (LONG_BYTES6 + [0x34, 0xe2, 0xa8])))))
  {
  }

  lemma {:induction false} LongArgBytes()
    ensures A.Bytes(LONG_ARG) == [0xe5, 0x26] + (LONG_BYTES8 + (LONG_BYTES9 + (LONG_BYTES10 + (LONG_BYTES11 + (LONG_BYTES12 + LONG_BYTES13)))))
  {
  }

  lemma {:induction false} BytesPlus(xs: seq<u8>, ys: seq<u8>)
    ensures A.Bytes(xs + ys) == A.Bytes(xs) + A.Bytes(ys)
  {
  }

  lemma {:induction false} LongPayload()
    ensures A.Payload(A.Multisig(LONG_ARG)) == [0x04] + MultisigLock() + LONG_ARG
  {
    LongPeriod();
    hide A.HasPeriod, LONG_ARG, MultisigLock;
  }

  lemma {:induction false} LongCut()
    ensures LONG_BYTES7 == [0x34, 0xe2, 0xa8] + [0xe5, 0x26]
  {
  }

  lemma {:induction false} LongBytes()
    ensures A.Bytes(A.Payload(A.Multisig(LONG_ARG))) == LONG_BYTES1 + (LONG_BYTES2 + (LONG_BYTES3 + (LONG_BYTES4 + (LONG_BYTES5 + (LONG_BYTES6 +
          (LONG_BYTES7 + (LONG_BYTES8 + (LONG_BYTES9 + (LONG_BYTES10 + (LONG_BYTES11 + (LONG_BYTES12 + LONG_BYTES13)))))))))))
  {
    hide *;
    LongPayload();
    LongHead();
    LongArgBytes();
    LongCut();
    BytesPlus([0x04] + MultisigLock(), LONG_ARG);
  }

  lemma {:induction false} LongFrom9()
    ensures Shows(0x4411190, LONG_BYTES9 + (LONG_BYTES10 + (LONG_BYTES11 + (LONG_BYTES12 + LONG_BYTES13))), LONG_TEXT9 + (LONG_TEXT10 + (LONG_TEXT11 +
          (LONG_TEXT12 + LONG_TEXT13))), 0x1fd33044)
  {
    hide *;
    LongLast();
    LongChars3();
    LongNumbers5();
    LongData5();
    LongFold5();
    LongNumbers6();
    LongData6();
    LongFold6();
    Behind(0x136ccf9c, LONG_BYTES12, LONG_NUMS12, LONG_DATA12, LONG_TEXT12, 0x1d4ed093,
           LONG_BYTES13, LONG_TEXT13, 0x1fd33044);
    Behind(0x89a2036, LONG_BYTES11, LONG_NUMS11, LONG_DATA11, LONG_TEXT11, 0x136ccf9c,
           LONG_BYTES12 + LONG_BYTES13, LONG_TEXT12 + LONG_TEXT13, 0x1fd33044);
    Behind(0x10d8f31a, LONG_BYTES10, LONG_NUMS10, LONG_DATA10, LONG_TEXT10, 0x89a2036,
           LONG_BYTES11 + (LONG_BYTES12 + LONG_BYTES13), LONG_TEXT11 + (LONG_TEXT12 + LONG_TEXT13), 0x1fd33044);
    Behind(0x4411190, LONG_BYTES9, LONG_NUMS9, LONG_DATA9, LONG_TEXT9, 0x10d8f31a,
           LONG_BYTES10 + (LONG_BYTES11 + (LONG_BYTES12 + LONG_BYTES13)), LONG_TEXT10 + (LONG_TEXT11 + (LONG_TEXT12 + LONG_TEXT13)), 0x1fd33044);
  }

  lemma {:induction false} LongFrom5()
    ensures Shows(0x3b2017f, LONG_BYTES5 + (LONG_BYTES6 + (LONG_BYTES7 + (LONG_BYTES8 + (LONG_BYTES9 + (LONG_BYTES10 + (LONG_BYTES11 +
          (LONG_BYTES12 + LONG_BYTES13))))))), LONG_TEXT5 + (LONG_TEXT6 + (LONG_TEXT7 + (LONG_TEXT8 + (LONG_TEXT9 + (LONG_TEXT10 + (LONG_TEXT11 +
          (LONG_TEXT12 + LONG_TEXT13))))))), 0x1fd33044)
  {
    hide *;
    LongFrom9();
    LongChars2();
    LongNumbers3();
    LongData3();
    LongFold3();
    LongNumbers4();
    LongData4();
    LongFold4();
    Behind(0xa7eaa1a, LONG_BYTES8, LONG_NUMS8, LONG_DATA8, LONG_TEXT8, 0x4411190,
           LONG_BYTES9 + (LONG_BYTES10 + (LONG_BYTES11 + (LONG_BYTES12 + LONG_BYTES13))), LONG_TEXT9 + (LONG_TEXT10 + (LONG_TEXT11 +
                 (LONG_TEXT12 + LONG_TEXT13))), 0x1fd33044);
    Behind(0x2f3458c4, LONG_BYTES7, LONG_NUMS7, LONG_DATA7, LONG_TEXT7, 0xa7eaa1a,
           LONG_BYTES8 + (LONG_BYTES9 + (LONG_BYTES10 + (LONG_BYTES11 + (LONG_BYTES12 + LONG_BYTES13)))), LONG_TEXT8 + (LONG_TEXT9 + (LONG_TEXT10 +
                 (LONG_TEXT11 + (LONG_TEXT12 + LONG_TEXT13)))), 0x1fd33044);
    Behind(0x29c21007, LONG_BYTES6, LONG_NUMS6, LONG_DATA6, LONG_TEXT6, 0x2f3458c4,
           LONG_BYTES7 + (LONG_BYTES8 + (LONG_BYTES9 + (LONG_BYTES10 + (LONG_BYTES11 + (LONG_BYTES12 + LONG_BYTES13))))), LONG_TEXT7 + (LONG_TEXT8 +
                 (LONG_TEXT9 + (LONG_TEXT10 + (LONG_TEXT11 + (LONG_TEXT12 + LONG_TEXT13))))), 0x1fd33044);
    Behind(0x3b2017f, LONG_BYTES5, LONG_NUMS5, LONG_DATA5, LONG_TEXT5, 0x29c21007,
           LONG_BYTES6 + (LONG_BYTES7 + (LONG_BYTES8 + (LONG_BYTES9 + (LONG_BYTES10 + (LONG_BYTES11 + (LONG_BYTES12 + LONG_BYTES13)))))), LONG_TEXT6 +
                 (LONG_TEXT7 + (LONG_TEXT8 + (LONG_TEXT9 + (LONG_TEXT10 + (LONG_TEXT11 + (LONG_TEXT12 + LONG_TEXT13)))))), 0x1fd33044);
  }

  lemma {:induction false} LongFrom1()
    ensures Shows(0x4dd3ddb, LONG_BYTES1 + (LONG_BYTES2 + (LONG_BYTES3 + (LONG_BYTES4 + (LONG_BYTES5 + (LONG_BYTES6 + (LONG_BYTES7 + (LONG_BYTES8 +
          (LONG_BYTES9 + (LONG_BYTES10 + (LONG_BYTES11 + (LONG_BYTES12 + LONG_BYTES13))))))))))), LONG_TEXT1 + (LONG_TEXT2 + (LONG_TEXT3 + (LONG_TEXT4 +
          (LONG_TEXT5 + (LONG_TEXT6 + (LONG_TEXT7 + (LONG_TEXT8 + (LONG_TEXT9 + (LONG_TEXT10 + (LONG_TEXT11 + (LONG_TEXT12 + LONG_TEXT13))))))))))), 0x1fd33044)
  {
    hide *;
    LongFrom5();
    LongChars1();
    LongNumbers1();
    LongData1();
    LongFold1();
    LongNumbers2();
    LongData2();
    LongFold2();
    Behind(0x26c32360, LONG_BYTES4, LONG_NUMS4, LONG_DATA4, LONG_TEXT4, 0x3b2017f,
           LONG_BYTES5 + (LONG_BYTES6 + (LONG_BYTES7 + (LONG_BYTES8 + (LONG_BYTES9 + (LONG_BYTES10 + (LONG_BYTES11 +
                 (LONG_BYTES12 + LONG_BYTES13))))))), LONG_TEXT5 + (LONG_TEXT6 + (LONG_TEXT7 + (LONG_TEXT8 + (LONG_TEXT9 + (LONG_TEXT10 + (LONG_TEXT11 +
                 (LONG_TEXT12 + LONG_TEXT13))))))), 0x1fd33044);
    Behind(0x1e791b24, LONG_BYTES3, LONG_NUMS3, LONG_DATA3, LONG_TEXT3, 0x26c32360,
           LONG_BYTES4 + (LONG_BYTES5 + (LONG_BYTES6 + (LONG_BYTES7 + (LONG_BYTES8 + (LONG_BYTES9 + (LONG_BYTES10 + (LONG_BYTES11 +
                 (LONG_BYTES12 + LONG_BYTES13)))))))), LONG_TEXT4 + (LONG_TEXT5 + (LONG_TEXT6 + (LONG_TEXT7 + (LONG_TEXT8 + (LONG_TEXT9 + (LONG_TEXT10 +
                 (LONG_TEXT11 + (LONG_TEXT12 + LONG_TEXT13)))))))), 0x1fd33044);
    Behind(0x245f1b69, LONG_BYTES2, LONG_NUMS2, LONG_DATA2, LONG_TEXT2, 0x1e791b24,
           LONG_BYTES3 + (LONG_BYTES4 + (LONG_BYTES5 + (LONG_BYTES6 + (LONG_BYTES7 + (LONG_BYTES8 + (LONG_BYTES9 + (LONG_BYTES10 + (LONG_BYTES11 +
                 (LONG_BYTES12 + LONG_BYTES13))))))))), LONG_TEXT3 + (LONG_TEXT4 + (LONG_TEXT5 + (LONG_TEXT6 + (LONG_TEXT7 + (LONG_TEXT8 + (LONG_TEXT9 +
                 (LONG_TEXT10 + (LONG_TEXT11 + (LONG_TEXT12 + LONG_TEXT13))))))))), 0x1fd33044);
    Behind(0x4dd3ddb, LONG_BYTES1, LONG_NUMS1, LONG_DATA1, LONG_TEXT1, 0x245f1b69,
           LONG_BYTES2 + (LONG_BYTES3 + (LONG_BYTES4 + (LONG_BYTES5 + (LONG_BYTES6 + (LONG_BYTES7 + (LONG_BYTES8 + (LONG_BYTES9 + (LONG_BYTES10 +
                 (LONG_BYTES11 + (LONG_BYTES12 + LONG_BYTES13)))))))))), LONG_TEXT2 + (LONG_TEXT3 + (LONG_TEXT4 + (LONG_TEXT5 + (LONG_TEXT6 +
                 (LONG_TEXT7 + (LONG_TEXT8 + (LONG_TEXT9 + (LONG_TEXT10 + (LONG_TEXT11 + (LONG_TEXT12 + LONG_TEXT13)))))))))), 0x1fd33044);
  }

  /** The multisig lock of 0xe5260d839a786ac2a909181df9a423f1efbe863a with the period 0x0102030405060708 is shown as
      "ckb1q3w9q60tppt7l3j7r09qcp7lxnp3vcanvgha8pmvsa3jplykxn323efxpkpe57r2c25sjxqalxjz8u00h6rr5qgzqvzq2ps8pqntd2cj". */
  lemma {:induction false} LongAddress()
    ensures A.Rendered(true, A.Multisig(LONG_ARG)) == CKB + [SEPARATOR] + LONG_TEXT + LONG_TEXT_SUM
  {
    assert HEAD == 0x4dd3ddb;
    hide *;
    LongBytes();
    LongFrom1();
    LongSum();
    LongSumChars();
    Shown(LONG_BYTES1 + (LONG_BYTES2 + (LONG_BYTES3 + (LONG_BYTES4 + (LONG_BYTES5 + (LONG_BYTES6 + (LONG_BYTES7 + (LONG_BYTES8 + (LONG_BYTES9 +
          (LONG_BYTES10 + (LONG_BYTES11 + (LONG_BYTES12 + LONG_BYTES13))))))))))), LONG_TEXT, LONG_SUM, 0x1fd33044, A.Multisig(LONG_ARG));
  }
}
