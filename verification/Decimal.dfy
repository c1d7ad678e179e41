/** Amounts in CKB as decimal strings. */
module Decimal {
  import opened Words

  const MAX_INT_DIGITS := 20
  const CKB_SCALE := 100000000
  const DECIMAL_DIGITS := 8

  function Digit(d: nat): (c: char)
    requires d < 10
    ensures '0' <= c <= '9'
  {
    ('0' as int + d) as char
  }

  predicate IsDigit(c: char) {
    '0' <= c <= '9'
  }

  function DigitValue(c: char): (d: nat)
    requires IsDigit(c)
    ensures d < 10
  {
    c as int - '0' as int
  }

  predicate AllDigits(s: string) {
    forall i | 0 <= i < |s| :: IsDigit(s[i])
  }

  /** The number these digits write. */
  function Value(s: string): nat
    requires AllDigits(s)
  {
    if s == [] then 0 else 10 * Value(s[..|s| - 1]) + DigitValue(s[|s| - 1])
  }

  /** A number without leading zeros. */
  function Plain(n: nat): (s: string)
    ensures s != [] && AllDigits(s) && Value(s) == n
    ensures s[0] == '0' ==> n == 0
    ensures n == 0 ==> s == "0"
  {
    if n < 10 then
      assert Value([]) == 0;
      [Digit(n)]
    else
      var s := Plain(n / 10);
      assert (s + [Digit(n % 10)])[..|s|] == s;
      s + [Digit(n % 10)]
  }

  /** The low `k` digits of a number. */
  function Fixed(n: nat, k: nat): (s: string)
    ensures |s| == k && AllDigits(s)
  {
    if k == 0 then [] else Fixed(n / 10, k - 1) + [Digit(n % 10)]
  }

  /** Without the zeros at the end. */
  function Strip(s: string): (t: string)
    ensures t <= s
    ensures t != [] ==> t[|t| - 1] != '0'
  {
    if s == [] || s[|s| - 1] != '0' then s else Strip(s[..|s| - 1])
  }

  /** `frac_ckb_to_string`. */
  function Render(n: nat): string {
    var fractional := n % CKB_SCALE;
    Plain(n / CKB_SCALE) + if fractional == 0 then [] else "." + Strip(Fixed(fractional, DECIMAL_DIGITS))
  }

  // ---------- Reading back ----------

  function Pow10(k: nat): nat {
    if k == 0 then 1 else 10 * Pow10(k - 1)
  }

  /** Where the decimal point is, or the length. */
  function Point(s: string): (i: nat)
    ensures i <= |s| && (i < |s| ==> s[i] == '.')
    ensures forall j | 0 <= j < i :: s[j] != '.'
  {
    if s == [] || s[0] == '.' then 0 else 1 + Point(s[1..])
  }

  /** What a decimal string with up to eight decimals says, in hundred-millionths. */
  function Read(s: string): nat
    requires var i := Point(s); AllDigits(s[..i]) && (i < |s| ==> AllDigits(s[i + 1..]) && |s| - i - 1 <= DECIMAL_DIGITS)
  {
    var i := Point(s);
    CKB_SCALE * Value(s[..i]) + if i == |s| then 0 else Pow10(DECIMAL_DIGITS - (|s| - i - 1)) * Value(s[i + 1..])
  }

  lemma {:induction false} FixedValue(n: nat, k: nat)
    requires n < Pow10(k)
    ensures Value(Fixed(n, k)) == n
  {
    if k > 0 {
      FixedValue(n / 10, k - 1);
      var s := Fixed(n, k);
      assert s[..k - 1] == Fixed(n / 10, k - 1);
    }
  }

  /** Stripping zeros scales the value down. */
  lemma {:induction false} StripValue(s: string)
    requires AllDigits(s)
    ensures AllDigits(Strip(s)) && Value(s) == Pow10(|s| - |Strip(s)|) * Value(Strip(s))
  {
    if s != [] && s[|s| - 1] == '0' {
      StripValue(s[..|s| - 1]);
      var k := |s| - 1 - |Strip(s)|;
      assert Value(s) == 10 * Value(s[..|s| - 1]);
      assert Pow10(k + 1) == 10 * Pow10(k);
      MulAssoc(Pow10(k), Value(Strip(s)));
    }
  }

  lemma {:induction false} MulAssoc(a: nat, b: nat)
    ensures 10 * (a * b) == (10 * a) * b
  {
  }

  lemma {:induction false} PointIs(w: string, f: string)
    requires AllDigits(w)
    ensures Point(w + "." + f) == |w| && Point(w) == |w|
  {
    var s := w + "." + f;
    assert s[|w|] == '.';
    forall j | 0 <= j < |w| ensures s[j] != '.' && w[j] != '.' {}
    hide Point;
  }

  lemma {:induction false} ScaleIs()
    ensures Pow10(8) == CKB_SCALE && Pow10(0) == 1
  {
    assert Pow10(4) == 10000;
  }

  /** The decimals of an amount. */
  function Decimals(n: nat): string {
    Strip(Fixed(n % CKB_SCALE, DECIMAL_DIGITS))
  }

  lemma {:induction false} DecimalsIs(n: nat)
    requires n % CKB_SCALE != 0
    ensures var f := Decimals(n);
            && AllDigits(f) && 0 < |f| <= 8 && f[|f| - 1] != '0' && Pow10(8 - |f|) * Value(f) == n % CKB_SCALE
  {
    var d := Fixed(n % CKB_SCALE, DECIMAL_DIGITS);
    ScaleIs();
    FixedValue(n % CKB_SCALE, DECIMAL_DIGITS);
    StripValue(d);
    assert Value([]) == 0;
    hide Fixed, Pow10, Value;
  }

  /** What is shown, read back, is the amount: exactly, with no zero to spare at either end. */
  lemma {:induction false} RenderExact(n: nat)
    ensures var s, i := Render(n), Point(Render(n));
            && AllDigits(s[..i]) && i > 0 && (s[0] == '0' ==> i == 1)
            && (i < |s| ==> AllDigits(s[i + 1..]) && 0 < |s| - i - 1 <= DECIMAL_DIGITS && s[|s| - 1] != '0')
            && Read(s) == n
  {
    var w, f := Plain(n / CKB_SCALE), Decimals(n);
    if n % CKB_SCALE == 0 {
      PointIs(w, "");
      assert Render(n) == w && w[..|w|] == w;
      hide Plain, Decimals, Value, Pow10, Point;
    } else {
      DecimalsIs(n);
      PointIs(w, f);
      var s := w + "." + f;
      assert Render(n) == s by { assert w + ("." + f) == s; }
      assert s[..|w|] == w && s[|w| + 1..] == f && s[0] == w[0];
      hide Plain, Decimals, Value, Pow10, Point, Render;
    }
  }

  /** Different amounts are shown differently. */
  lemma {:induction false} RenderInjective(m: nat, n: nat)
    requires Render(m) == Render(n)
    ensures m == n
  {
    hide Render;
    RenderExact(m);
    RenderExact(n);
  }

  // ---------- Lengths ----------

  lemma {:induction false} PlainShort(n: nat, k: nat)
    requires k > 0 && n < Pow10(k)
    ensures |Plain(n)| <= k
    decreases k
  {
    if n >= 10 { PlainShort(n / 10, k - 1); }
  }

  lemma {:induction false} PlainLong(n: nat, k: nat)
    requires n >= Pow10(k)
    ensures |Plain(n)| > k
    decreases k
  {
    if k > 0 { PlainLong(n / 10, k - 1); }
  }

  lemma {:induction false} PowersOfTen()
    ensures Pow10(11) == 100000000000 && Pow10(12) == 1000000000000 && Pow10(20) == 100000000000000000000
  {
    assert Pow10(4) == 10000;
    assert Pow10(8) == 100000000;
    assert Pow10(16) == 10000000000000000;
  }

  lemma {:induction false} LastDecimal(n: nat)
    ensures |Decimals(n)| == DECIMAL_DIGITS <==> n % 10 != 0
  {
    var d := n % CKB_SCALE;
    var f := Fixed(d, DECIMAL_DIGITS);
    assert f == Fixed(d / 10, DECIMAL_DIGITS - 1) + [Digit(d % 10)];
    assert f[DECIMAL_DIGITS - 1] == Digit(d % 10);
    assert d % 10 == n % 10;
    assert f[DECIMAL_DIGITS - 1] == '0' ==> |Strip(f)| <= DECIMAL_DIGITS - 1;
    hide Fixed;
  }

  /** A 64-bit amount takes at most 21 characters, and a final zero. The check before the rendering
      only asks for room for 21 in all; it falls short exactly for amounts from a hundred billion CKB
      on that use all eight decimals. */
  lemma {:induction false} RenderLength(n: u64)
    ensures |Render(n)| + 1 <= MAX_INT_DIGITS + 2
    ensures |Render(n)| + 1 > MAX_INT_DIGITS + 1 <==> n / CKB_SCALE >= 100000000000 && n % 10 != 0
  {
    var whole := (n as nat) / CKB_SCALE;
    PowersOfTen();
    PlainShort(whole, 12);
    if whole >= 100000000000 { PlainLong(whole, 11); } else { PlainShort(whole, 11); }
    LastDecimal(n);
    if n % CKB_SCALE == 0 {
      assert n % 10 == 0;
    } else {
      DecimalsIs(n);
    }
    hide Plain, Pow10, Decimals, Value, AllDigits;
    RenderSize(n);
  }

  lemma {:induction false} RenderSize(n: nat)
    ensures |Render(n)| == |Plain(n / CKB_SCALE)| + if n % CKB_SCALE == 0 then 0 else 1 + |Decimals(n)|
  {
    hide Plain, Strip, Fixed;
  }

  // ---------- The loops ----------

  lemma {:induction false} FixedTail(n: nat, k: nat, j: nat)
    requires j <= k
    ensures Fixed(n, k)[k - j..] == Fixed(n, j)
    decreases j
  {
    if j > 0 {
      FixedTail(n / 10, k - 1, j - 1);
      var s := Fixed(n / 10, k - 1);
      assert Fixed(n, k) == s + [Digit(n % 10)];
      assert (s + [Digit(n % 10)])[k - j..] == s[k - j..] + [Digit(n % 10)];
    }
  }

  /** `n` without its last `j` digits. */
  function Drop(n: nat, j: nat): nat {
    if j == 0 then n else Drop(n, j - 1) / 10
  }

  lemma {:induction false} DropFirst(n: nat, j: nat)
    requires j > 0
    ensures Drop(n, j) == Drop(n / 10, j - 1)
  {
    if j > 1 { DropFirst(n, j - 1); }
  }

  lemma {:induction false} FixedNext(n: nat, j: nat)
    ensures Fixed(n, j + 1) == [Digit(Drop(n, j) % 10)] + Fixed(n, j)
  {
    if j > 0 {
      FixedNext(n / 10, j - 1);
      DropFirst(n, j);
      assert Fixed(n, j + 1) == Fixed(n / 10, j) + [Digit(n % 10)];
    } else {
      assert Fixed(n, 1) == Fixed(n / 10, 0) + [Digit(n % 10)];
    }
  }

  lemma {:induction false} PlainFixed(n: nat, j: nat)
    requires j > 0 && Drop(n, j) == 0 && (j > 1 ==> Drop(n, j - 1) != 0)
    ensures Plain(n) == Fixed(n, j)
  {
    if j > 1 {
      DropFirst(n, j);
      DropFirst(n, j - 1);
      if n < 10 {
        DropZero(j - 2);
      }
      PlainFixed(n / 10, j - 1);
    } else {
      assert Fixed(n, 1) == Fixed(n / 10, 0) + [Digit(n % 10)];
    }
  }

  lemma {:induction false} DropZero(j: nat)
    ensures Drop(0, j) == 0
  {
    if j > 0 { DropZero(j - 1); }
  }

  lemma {:induction false} DropSmall(n: nat, j: nat)
    requires n < Pow10(j)
    ensures Drop(n, j) == 0
  {
    if j > 0 {
      DropFirst(n, j);
      DropSmall(n / 10, j - 1);
    }
  }

  /** `convert_number`: fills the digits from the end, and returns where it stopped. */
  method ConvertNumber(dest: array<char>, number: u64, leadingZeros: bool) returns (off: nat)
    requires dest.Length == MAX_INT_DIGITS
    modifies dest
    ensures off < MAX_INT_DIGITS && (leadingZeros ==> off == 0 && dest[..] == Fixed(number, MAX_INT_DIGITS))
    ensures !leadingZeros ==> dest[off..] == Plain(number)
  {
    hide Fixed, Plain;
    PowersOfTen();
    DropSmall(number, MAX_INT_DIGITS);
    var rest: nat := number;
    var ptr := MAX_INT_DIGITS;
    FixedNone(number);
    while ptr > 0
      invariant 0 <= ptr <= MAX_INT_DIGITS
      invariant rest == Drop(number, MAX_INT_DIGITS - ptr)
      invariant dest[ptr..] == Fixed(number, MAX_INT_DIGITS - ptr)
      invariant !leadingZeros && ptr < MAX_INT_DIGITS ==> rest != 0
    {
      FixedNext(number, MAX_INT_DIGITS - ptr);
      ptr := ptr - 1;
      dest[ptr] := Digit(rest % 10);
      rest := rest / 10;
      assert dest[ptr..] == [dest[ptr]] + dest[ptr + 1..];
      if !leadingZeros && rest == 0 {
        PlainFixed(number, MAX_INT_DIGITS - ptr);
        return ptr;
      }
    }
    off := 0;
  }

  lemma {:induction false} FixedNone(n: nat)
    ensures Fixed(n, 0) == []
  {
  }

  /** `number_to_string`, writing at `at`. */
  method NumberToString(dest: array<char>, at: nat, number: u64) returns (length: nat)
    requires at + MAX_INT_DIGITS < dest.Length
    modifies dest
    ensures length == |Plain(number)| <= MAX_INT_DIGITS
    ensures dest[..at + length] == old(dest[..at]) + Plain(number) && dest[at + length] == '\0'
  {
    hide Plain, Fixed;
    var tmp := new char[MAX_INT_DIGITS];
    var off := ConvertNumber(tmp, number, false);
    length := MAX_INT_DIGITS - off;
    ghost var before := dest[..at];
    var i := 0;
    while i < length
      invariant i <= length && dest[..at + i] == before + tmp[off..off + i]
      invariant tmp[off..] == Plain(number)
    {
      dest[at + i] := tmp[off + i];
      i := i + 1;
    }
    assert tmp[off..off + length] == tmp[off..];
    dest[at + length] := '\0';
  }

  lemma {:induction false} StripIs(s: string, end: nat)
    requires end <= |s| && (end > 0 ==> s[end - 1] != '0') && forall i | end <= i < |s| :: s[i] == '0'
    ensures Strip(s) == s[..end]
    decreases |s|
  {
    if end < |s| {
      StripIs(s[..|s| - 1], end);
      assert s[..|s| - 1][..end] == s[..end];
    } else {
      assert s[..end] == s;
    }
  }

  lemma {:induction false} EightDigits(n: nat)
    ensures Fixed(n, MAX_INT_DIGITS)[12..] == Fixed(n % CKB_SCALE, DECIMAL_DIGITS)
  {
    FixedTail(n, MAX_INT_DIGITS, DECIMAL_DIGITS);
    FixedModulo(n);
  }

  lemma {:induction false} FixedModulo(n: nat)
    ensures Fixed(n, DECIMAL_DIGITS) == Fixed(n % CKB_SCALE, DECIMAL_DIGITS)
  {
    var q := n / CKB_SCALE;
    assert Scaled(q, 1) == 10 * q && Scaled(q, 2) == 100 * q && Scaled(q, 3) == 1000 * q && Scaled(q, 4) == 10000 * q;
    assert Scaled(q, 5) == 100000 * q && Scaled(q, 6) == 1000000 * q && Scaled(q, 7) == 10000000 * q && Scaled(q, 8) == CKB_SCALE * q;
    FixedAbove(n % CKB_SCALE, q, 8);
  }

  /** `q` followed by `k` zeros. */
  function Scaled(q: nat, k: nat): nat {
    if k == 0 then q else 10 * Scaled(q, k - 1)
  }

  /** Digits further left do not show. */
  lemma {:induction false} FixedAbove(n: nat, q: nat, k: nat)
    ensures Fixed(n + Scaled(q, k), k) == Fixed(n, k)
  {
    if k > 0 {
      FixedAbove(n / 10, q, k - 1);
      assert (n + Scaled(q, k)) / 10 == n / 10 + Scaled(q, k - 1) && (n + Scaled(q, k)) % 10 == n % 10;
    }
  }

  /** The decimals without the zeros at the end; there is one that is not zero. */
  method FindEnd(tmp: array<char>, start: nat) returns (end: nat)
    requires start <= tmp.Length && Strip(tmp[start..]) != []
    ensures start < end <= tmp.Length && tmp[start..end] == Strip(tmp[start..])
  {
    end := tmp.Length;
    ghost var s := tmp[start..];
    while end > start && tmp[end - 1] == '0'
      invariant start <= end <= tmp.Length
      invariant forall i | end - start <= i < |s| :: s[i] == '0'
    {
      end := end - 1;
    }
    StripIs(s, end - start);
    assert s[..end - start] == tmp[start..end];
  }

  /** The decimal point and the decimals. */
  method AppendDecimals(dest: array<char>, at: nat, number: u64) returns (off: nat)
    requires at + 1 + DECIMAL_DIGITS <= dest.Length && number % CKB_SCALE != 0
    modifies dest
    ensures off == at + 1 + |Decimals(number)| <= dest.Length && dest[..off] == old(dest[..at]) + "." + Decimals(number)
  {
    hide Fixed, Strip;
    ghost var before := dest[..at];
    DecimalsIs(number);
    EightDigits(number);
    dest[at] := '.';
    assert dest[..at + 1] == before + ".";
    var tmp := new char[MAX_INT_DIGITS];
    var zero := ConvertNumber(tmp, number, true);
    var start := MAX_INT_DIGITS - DECIMAL_DIGITS;
    assert tmp[start..] == Fixed(number, MAX_INT_DIGITS)[12..];
    var end := FindEnd(tmp, start);
    off := CopyDigits(dest, at + 1, tmp, start, end);
  }

  /** `frac_ckb_to_string`: the whole part, and the decimals if there are any. The buffer must hold 22
      characters, one more than `frac_ckb_to_string_indirect` checks. */
  method FracCkbToString(dest: array<char>, number: u64) returns (off: nat)
    requires dest.Length >= MAX_INT_DIGITS + 2
    modifies dest
    ensures off == |Render(number)| < dest.Length && dest[..off] == Render(number) && dest[off] == '\0'
  {
    var whole: u64 := number / CKB_SCALE;
    WholePart(number, whole);
    hide *;
    off := NumberToString(dest, 0, whole);
    assert dest[..off] == Plain(whole);
    var fractional := number % CKB_SCALE;
    if fractional == 0 { return; }
    off := AppendDecimals(dest, off, number);
    Terminate(dest, off);
  }

  method Terminate(dest: array<char>, off: nat)
    requires off < dest.Length
    modifies dest
    ensures dest[..off] == old(dest[..off]) && dest[off] == '\0'
  {
    dest[off] := '\0';
  }

  lemma {:induction false} WholePart(number: u64, whole: nat)
    requires whole == number / CKB_SCALE
    ensures |Plain(whole)| <= 12
    ensures number % CKB_SCALE == 0 ==> Render(number) == Plain(whole)
    ensures number % CKB_SCALE != 0 ==> Render(number) == Plain(whole) + "." + Decimals(number) && |Decimals(number)| <= DECIMAL_DIGITS
  {
    RenderIs(number);
    PowersOfTen();
    PlainShort(whole, 12);
    if number % CKB_SCALE != 0 { DecimalsIs(number); }
    hide Plain, Decimals, Render, Pow10;
  }

  method CopyDigits(dest: array<char>, at: nat, tmp: array<char>, start: nat, end: nat) returns (off: nat)
    requires start <= end <= tmp.Length && at + (end - start) <= dest.Length && tmp != dest
    modifies dest
    ensures off == at + (end - start) && dest[..off] == old(dest[..at]) + tmp[start..end]
  {
    ghost var before := dest[..at];
    var i := 0;
    while i < end - start
      invariant i <= end - start && dest[..at + i] == before + tmp[start..start + i]
    {
      dest[at + i] := tmp[start + i];
      i := i + 1;
    }
    off := at + i;
  }

  lemma {:induction false} RenderIs(n: nat)
    ensures Render(n) == if n % CKB_SCALE == 0 then Plain(n / CKB_SCALE) else Plain(n / CKB_SCALE) + "." + Decimals(n)
  {
    hide Plain, Strip, Fixed;
    if n % CKB_SCALE != 0 {
      assert Plain(n / CKB_SCALE) + ("." + Decimals(n)) == Plain(n / CKB_SCALE) + "." + Decimals(n);
    } else {
      assert Plain(n / CKB_SCALE) + [] == Plain(n / CKB_SCALE);
    }
  }
}
