/**
 The integer directives of `fmt_vsnprintf` and `strtol` in src/ffi/stubs.c, for a format that is one
 integer directive with a width and an optional zero flag.
 */
module Stdio {
  const LONG_MAX: nat := 0x7FFF_FFFF_FFFF_FFFF
  const ULONG_MAX: nat := 0xFFFF_FFFF_FFFF_FFFF

  // ---- Digits ----

  function DigitChar(d: nat, upper: bool): char
    requires d < 16
  {
    if d < 10 then '0' + d as char else if upper then 'A' + (d - 10) as char else 'a' + (d - 10) as char
  }

  /** The value of a digit in either case, or -1. */
  function DigitValue(c: char): int {
    if '0' <= c <= '9' then (c - '0') as int
    else if 'a' <= c <= 'f' then (c - 'a') as int + 10
    else if 'A' <= c <= 'F' then (c - 'A') as int + 10
    else -1
  }

  predicate IsDigit(c: char, base: nat) { 0 <= DigitValue(c) < base }

  predicate AllDigits(s: string, base: nat) { forall i :: 0 <= i < |s| ==> IsDigit(s[i], base) }

  lemma DigitRoundTrip(d: nat, upper: bool)
    requires d < 16
    ensures DigitValue(DigitChar(d, upper)) == d
  {
  }

  /** The digits as the two tables of the source give them, and as `strtol` takes them. */
  lemma DigitTable(d: nat, upper: bool, c: char)
    requires d < 16
    ensures DigitChar(d, upper) == (if upper then "0123456789ABCDEF" else "0123456789abcdef")[d]
    ensures DigitValue(c) == d <==> c == "0123456789ABCDEF"[d] || c == "0123456789abcdef"[d]
    ensures -1 <= DigitValue(c) < 16
  {
  }

  /** The number `s` denotes. */
  function Val(s: string, base: nat): nat
    requires AllDigits(s, base)
  {
    if s == [] then 0 else Val(s[..|s| - 1], base) * base + DigitValue(s[|s| - 1])
  }

  /** The shortest digits of `val`, most significant first. */
  function Digits(val: nat, base: nat, upper: bool): (s: string)
    requires 2 <= base <= 16
    ensures |s| > 0
    decreases val
  {
    DivMod(val, base);
    (if val < base then [] else DivSmaller(val, base); Digits(val / base, base, upper)) + [DigitChar(val % base, upper)]
  }

  lemma DivMod(val: nat, base: nat)
    requires base > 0
    ensures val == val / base * base + val % base && 0 <= val % base < base && (val < base ==> val % base == val)
  {
  }

  lemma ValEmpty(base: nat)
    ensures Val([], base) == 0
  {
  }

  lemma ValAppend(s: string, c: char, base: nat)
    requires AllDigits(s, base) && IsDigit(c, base)
    ensures AllDigits(s + [c], base) && Val(s + [c], base) == Val(s, base) * base + DigitValue(c)
  {
    assert (s + [c])[..|s|] == s;
  }

  lemma {:induction false} DigitsDenote(val: nat, base: nat, upper: bool)
    requires 2 <= base <= 16
    ensures AllDigits(Digits(val, base, upper), base) && Val(Digits(val, base, upper), base) == val
    decreases val
  {
    hide Val, DigitChar, DigitValue, Digits;
    var q, r := val / base, val % base;
    DigitsUnfold(val, base, upper);
    DigitRoundTrip(r, upper);
    DivMod(val, base);
    ValEmpty(base);
    if val >= base {
      DivSmaller(val, base);
      DigitsDenote(q, base, upper);
      ValAppend(Digits(q, base, upper), DigitChar(r, upper), base);
    } else {
      ValAppend([], DigitChar(r, upper), base);
    }
  }

  lemma DigitsUnfold(val: nat, base: nat, upper: bool)
    requires 2 <= base <= 16
    ensures var q, last := val / base, [DigitChar(val % base, upper)];
      Digits(val, base, upper) == if val < base then [] + last else Digits(q, base, upper) + last
  {
  }

  function Pow(base: nat, k: nat): nat { if k == 0 then 1 else base * Pow(base, k - 1) }

  lemma DivBelow(val: nat, base: nat, p: nat)
    requires base > 0 && val < base * p
    ensures val / base < p
  {
    var q := val / base;
    assert q >= p ==> base * q >= base * p;
  }

  lemma {:induction false} DigitsLength(val: nat, base: nat, upper: bool, k: nat)
    requires 2 <= base <= 16 && 0 < k && val < Pow(base, k)
    ensures |Digits(val, base, upper)| <= k
  {
    hide Digits, Pow;
    DigitsUnfold(val, base, upper);
    PowUnfold(base, k);
    if val >= base {
      DivBelow(val, base, Pow(base, k - 1));
      DivSmaller(val, base);
      DigitsLength(val / base, base, upper, k - 1);
    }
  }

  lemma PowUnfold(base: nat, k: nat)
    requires k > 0
    ensures Pow(base, k) == base * Pow(base, k - 1) && (k == 1 ==> Pow(base, k) == base)
  {
    assert Pow(base, 0) == 1;
  }

  lemma Assoc(a: nat, b: nat, c: nat)
    ensures a * (b * c) == a * b * c
  {
  }

  lemma {:induction false} PowTimes(base: nat, j: nat, k: nat)
    ensures Pow(base, j + k) == Pow(base, j) * Pow(base, k)
  {
    if j > 0 {
      PowTimes(base, j - 1, k);
      Assoc(base, Pow(base, j - 1), Pow(base, k));
    }
  }

  /** A 64-bit number has at most 20 digits in base 10 and 16 in base 16. */
  lemma WordLength(val: nat, base: nat, upper: bool)
    requires val <= ULONG_MAX && (base == 10 || base == 16)
    ensures |Digits(val, base, upper)| <= 20
  {
    hide Digits;
    var k := if base == 10 then 20 else 16;
    assert Pow(base, 4) == base * base * base * base;
    PowTimes(base, 4, 4);
    PowTimes(base, 8, 8);
    if base == 10 { PowTimes(base, 16, 4); }
    hide Pow;
    DigitsLength(val, base, upper, k);
  }

  // ---- What a directive prints ----

  function Repeat(c: char, n: nat): (s: string)
    ensures |s| == n && forall i :: 0 <= i < n ==> s[i] == c
  {
    seq(n, _ => c)
  }

  function Fill(len: nat, width: nat): nat { if len < width then width - len else 0 }

  /** Sign and digits, filled to `width` with blanks before the sign or zeros after it. */
  function Text(neg: bool, val: nat, base: nat, upper: bool, zero: bool, width: nat): (s: string)
    requires 2 <= base <= 16
  {
    var digits := Digits(val, base, upper);
    var sign := if neg then "-" else "";
    var fill := Fill(|sign| + |digits|, width);
    if zero then sign + Repeat('0', fill) + digits else Repeat(' ', fill) + sign + digits
  }

  /** The digits denote `val`, without a leading zero, in the characters of their case. */
  ghost predicate Written(digits: string, val: nat, base: nat, upper: bool) {
    && AllDigits(digits, base) && Val(digits, base) == val
    && digits != [] && (digits[0] == '0' ==> digits == "0")
    && forall i :: 0 <= i < |digits| ==> digits[i] in if upper then "0123456789ABCDEF" else "0123456789abcdef"
  }

  /** Where everything stands in a text `s` that ends in `d` digits: blanks and then the sign, or the sign and then zeros. */
  ghost predicate LaidOut(s: string, d: nat, neg: bool, zero: bool, width: nat) {
    var len := d + if neg then 1 else 0;
    && |s| == (if len < width then width else len)
    && (zero ==> (neg ==> s[0] == '-') && forall i :: len - d <= i < |s| - d ==> s[i] == '0')
    && (!zero ==> (neg ==> s[|s| - len] == '-') && forall i :: 0 <= i < |s| - len ==> s[i] == ' ')
  }

  lemma {:induction false} DigitsWritten(val: nat, base: nat, upper: bool)
    requires 2 <= base <= 16
    ensures Written(Digits(val, base, upper), val, base, upper) && (Digits(val, base, upper)[0] == '0' ==> val == 0)
    decreases val
  {
    hide Val, DigitChar, Digits, AllDigits;
    var r := val % base;
    DigitsDenote(val, base, upper);
    DigitsUnfold(val, base, upper);
    DivMod(val, base);
    DigitTable(r, upper, DigitChar(r, upper));
    DigitTable(0, upper, DigitChar(r, upper));
    DigitRoundTrip(r, upper);
    if val >= base {
      DivSmaller(val, base);
      DigitsWritten(val / base, base, upper);
    }
  }

  /** What a directive prints: exactly the width or the length of the number, the fill of its flag, and the number's digits. */
  lemma TextExactly(neg: bool, val: nat, base: nat, upper: bool, zero: bool, width: nat) returns (d: nat)
    requires 2 <= base <= 16
    ensures d <= |Text(neg, val, base, upper, zero, width)|
    ensures var s := Text(neg, val, base, upper, zero, width);
      Written(s[|s| - d..], val, base, upper) && LaidOut(s, d, neg, zero, width)
  {
    hide Digits, Written, Repeat;
    var digits := Digits(val, base, upper);
    d := |digits|;
    DigitsWritten(val, base, upper);
    var s := Text(neg, val, base, upper, zero, width);
    assert s[|s| - d..] == digits;
  }

  // ---- strtol ----

  datatype Parse = Overflow | Parsed(value: int, end: nat)

  function Signed(neg: bool, v: nat): int { if neg then -(v as int) else v }

  function SkipBlanks(s: string, i: nat): (k: nat)
    requires i <= |s|
    ensures i <= k <= |s| && (k < |s| ==> s[k] != ' ' && s[k] != '\t')
    ensures forall j :: i <= j < k ==> s[j] == ' ' || s[j] == '\t'
    decreases |s| - i
  {
    if i < |s| && (s[i] == ' ' || s[i] == '\t') then SkipBlanks(s, i + 1) else i
  }

  /** Where the run of digits from `i` ends. */
  function RunEnd(s: string, i: nat, base: nat): (k: nat)
    requires i <= |s|
    ensures i <= k <= |s| && AllDigits(s[i..k], base) && (k < |s| ==> !IsDigit(s[k], base))
    decreases |s| - i
  {
    if i < |s| && IsDigit(s[i], base) then
      var k := RunEnd(s, i + 1, base);
      assert s[i..k] == [s[i]] + s[i + 1..k];
      k
    else i
  }

  /** The index and base at which digits are read: base 0 means 16 after "0x", 8 after "0", else 10. */
  function Prefix(s: string, i: nat, base: nat): (r: (nat, nat))
    requires i <= |s|
    ensures i <= r.0 <= |s|
  {
    if base != 0 then (i, base)
    else if i + 1 < |s| && s[i] == '0' && (s[i + 1] == 'x' || s[i + 1] == 'X') then (i + 2, 16)
    else if i < |s| && s[i] == '0' then (i, 8)
    else (i, 10)
  }

  /** Past the blanks and a sign. */
  function Start(s: string): (j: nat)
    ensures j <= |s|
  {
    var i := SkipBlanks(s, 0);
    if i < |s| && (s[i] == '-' || s[i] == '+') then i + 1 else i
  }

  predicate Negative(s: string) {
    var i := SkipBlanks(s, 0);
    i < |s| && s[i] == '-'
  }

  /** What `strtol` must return: the longest run of digits after blanks and a sign. */
  function StrtolOf(s: string, base: nat): Parse {
    var neg := Negative(s);
    var (from, b) := Prefix(s, Start(s), base);
    var end := RunEnd(s, from, b);
    var v := Val(s[from..end], b);
    if v > LONG_MAX then Overflow else Parsed(Signed(neg, v), end)
  }

  /** Blanks and tabs, an optional sign of either kind, and what follows: where reading starts, and whether it is negative. */
  lemma StartExactly(blanks: string, sign: string, rest: string)
    requires forall i :: 0 <= i < |blanks| ==> blanks[i] == ' ' || blanks[i] == '\t'
    requires sign == "-" || sign == "+" || (sign == "" && (rest == [] || rest[0] !in [' ', '\t', '-', '+']))
    ensures var s := blanks + sign + rest; Start(s) == |blanks| + |sign| && (Negative(s) <==> sign == "-")
  {
    var s := blanks + sign + rest;
    var k := SkipBlanks(s, 0);
    assert k == |blanks| by {
      assert |blanks| < |s| ==> s[|blanks|] == if sign == "" then rest[0] else sign[0];
      assert forall i :: 0 <= i < |blanks| ==> s[i] == blanks[i];
    }
  }

  lemma ValStep(s: string, from: nat, i: nat, base: nat)
    requires from <= i < |s| && AllDigits(s[from..i + 1], base)
    ensures AllDigits(s[from..i], base) && Val(s[from..i + 1], base) == Val(s[from..i], base) * base + DigitValue(s[i])
  {
    assert s[from..i + 1][..i - from] == s[from..i];
    assert forall k :: 0 <= k < i - from ==> s[from..i][k] == s[from..i + 1][k];
  }

  /** More digits never make the number smaller. */
  lemma {:induction false} ValGrows(s: string, from: nat, i: nat, end: nat, base: nat)
    requires from <= i <= end <= |s| && AllDigits(s[from..end], base) && base > 0
    ensures AllDigits(s[from..i], base) && Val(s[from..i], base) <= Val(s[from..end], base)
  {
    if i < end {
      ValStep(s, from, end - 1, base);
      ValGrows(s, from, i, end - 1, base);
      MulGrows(Val(s[from..end - 1], base), base);
    }
  }

  lemma MulGrows(v: nat, base: nat)
    requires base > 0
    ensures v <= v * base
  {
  }

  /** `Overflow` stands for the signed overflow of the accumulation, which C leaves undefined. */
  method Strtol(s: string, base: nat) returns (r: Parse)
    ensures r == StrtolOf(s, base)
  {
    hide Val, RunEnd, IsDigit, AllDigits;
    var i := 0;
    while i < |s| && (s[i] == ' ' || s[i] == '\t')
      invariant i <= |s| && SkipBlanks(s, 0) == SkipBlanks(s, i)
    {
      i := i + 1;
    }
    var neg := false;
    if i < |s| && s[i] == '-' { neg := true; i := i + 1; } else if i < |s| && s[i] == '+' { i := i + 1; }
    var b := base;
    if b == 0 {
      if i + 1 < |s| && s[i] == '0' && (s[i + 1] == 'x' || s[i + 1] == 'X') { b, i := 16, i + 2; }
      else if i < |s| && s[i] == '0' { b := 8; }
      else { b := 10; }
    }
    var end, v := Accumulate(s, i, b);
    if v > LONG_MAX { return Overflow; }
    r := Parsed(Signed(neg, v), end);
  }

  /** The digit loop; it stops early only once the value no longer fits. */
  method Accumulate(s: string, from: nat, base: nat) returns (end: nat, val: nat)
    requires from <= |s| && base > 0
    ensures var e := RunEnd(s, from, base);
      if Val(s[from..e], base) <= LONG_MAX then end == e && val == Val(s[from..e], base) else val > LONG_MAX
  {
    ghost var e := RunEnd(s, from, base);
    end, val := from, 0;
    while end < |s|
      invariant from <= end <= e && RunEnd(s, end, base) == e && AllDigits(s[from..end], base)
      invariant val == Val(s[from..end], base) && val <= LONG_MAX
    {
      var d := DigitValue(s[end]);
      if d < 0 { break; }
      if d >= base { break; }
      ValGrows(s, from, end + 1, e, base);
      ValStep(s, from, end, base);
      val := val * base + d;
      end := end + 1;
      if val > LONG_MAX { return; }
    }
  }

  // ---- Printing then parsing ----

  lemma {:induction false} ZerosVanish(n: nat, s: string, base: nat)
    requires AllDigits(s, base) && base > 0
    ensures AllDigits(Repeat('0', n) + s, base) && Val(Repeat('0', n) + s, base) == Val(s, base)
    decreases |s| + n
  {
    var z := Repeat('0', n);
    if s != [] {
      var s', c := s[..|s| - 1], s[|s| - 1];
      ZerosVanish(n, s', base);
      assert z + s == (z + s') + [c] && s == s' + [c];
      ValAppend(z + s', c, base);
      ValAppend(s', c, base);
    } else if n > 0 {
      ZerosVanish(n - 1, [], base);
      assert z + s == (Repeat('0', n - 1) + []) + ['0'];
      ValAppend(Repeat('0', n - 1) + [], '0', base);
    }
  }

  lemma SkipAll(n: nat, rest: string)
    requires rest != [] && rest[0] != ' ' && rest[0] != '\t'
    ensures SkipBlanks(Repeat(' ', n) + rest, 0) == n
  {
    var s := Repeat(' ', n) + rest;
    var k := SkipBlanks(s, 0);
    assert s[n] == rest[0];
  }

  /** Blanks, a sign and a run of digits to the end parse to the number the run denotes. */
  lemma Parses(blanks: nat, neg: bool, digits: string, base: nat)
    requires digits != [] && AllDigits(digits, base) && 0 < base
    ensures var s := Repeat(' ', blanks) + (if neg then "-" else "") + digits;
      StrtolOf(s, base) == if Val(digits, base) <= LONG_MAX then Parsed(Signed(neg, Val(digits, base)), |s|) else Overflow
  {
    hide Val, RunEnd, SkipBlanks, Repeat, IsDigit, AllDigits;
    var sign := if neg then "-" else "";
    var lead, tail := Repeat(' ', blanks), sign + digits;
    var s := lead + sign + digits;
    assert s == lead + tail;
    FirstDigit(digits, base);
    SkipAll(blanks, tail);
    assert s[blanks] == tail[0];
    var from := blanks + |sign|;
    assert s[from..|s|] == s[from..] == digits;
    RunToEnd(s, from, base);
  }

  lemma FirstDigit(digits: string, base: nat)
    requires digits != [] && AllDigits(digits, base)
    ensures digits[0] !in [' ', '\t', '-', '+']
  {
    assert IsDigit(digits[0], base);
  }

  lemma {:induction false} RunToEnd(s: string, i: nat, base: nat)
    requires i <= |s| && AllDigits(s[i..], base)
    ensures RunEnd(s, i, base) == |s|
    decreases |s| - i
  {
    if i < |s| {
      assert s[i..][0] == s[i];
      assert s[i..][1..] == s[i + 1..];
      RunToEnd(s, i + 1, base);
    }
  }

  /** What an integer directive prints, `strtol` reads back exactly when it fits a long, for any width and flag. */
  lemma TextParses(neg: bool, val: nat, base: nat, upper: bool, zero: bool, width: nat)
    requires 2 <= base <= 16
    ensures var s := Text(neg, val, base, upper, zero, width);
      StrtolOf(s, base) == if val <= 9223372036854775807 then Parsed(if neg then -(val as int) else val, |s|) else Overflow
  {
    hide Digits, Val, StrtolOf, AllDigits, Repeat;
    var digits := Digits(val, base, upper);
    var sign := if neg then "-" else "";
    var fill := Fill(|sign| + |digits|, width);
    DigitsDenote(val, base, upper);
    if zero {
      var zeros := Repeat('0', fill);
      ZerosVanish(fill, digits, base);
      Parses(0, neg, zeros + digits, base);
      assert sign + zeros + digits == Repeat(' ', 0) + sign + (zeros + digits);
    } else {
      Parses(fill, neg, digits, base);
    }
  }

  // ---- Printing into a buffer ----

  /** How many of `n` characters fit before the terminator. */
  function Clip(n: nat, maxlen: nat): nat {
    if n + 1 <= maxlen then n else if maxlen == 0 then 0 else maxlen - 1
  }

  ghost predicate Emitted(buf: array<char>, pos: nat, maxlen: nat, text: string)
    reads buf
  {
    maxlen <= buf.Length && pos == Clip(|text|, maxlen) && buf[..pos] == text[..pos]
  }

  lemma EmittedNone(buf: array<char>, maxlen: nat)
    requires maxlen <= buf.Length
    ensures Emitted(buf, 0, maxlen, "")
  {
  }

  /** The `OUT` macro: characters that do not fit are dropped. */
  method Out(buf: array<char>, pos: nat, maxlen: nat, c: char, ghost text: string) returns (pos': nat)
    requires Emitted(buf, pos, maxlen, text)
    modifies buf
    ensures Emitted(buf, pos', maxlen, text + [c])
  {
    pos' := pos;
    if pos + 1 < maxlen {
      buf[pos] := c;
      pos' := pos + 1;
    }
  }

  /** The digits still to be produced. */
  function Left(val: nat, base: nat, upper: bool): string
    requires 2 <= base <= 16
  {
    if val == 0 then [] else Digits(val, base, upper)
  }

  lemma LeftEnds(val: nat, base: nat, upper: bool)
    requires 2 <= base <= 16
    ensures Left(0, base, upper) == [] && Digits(0, base, upper) == "0" && (val > 0 ==> Left(val, base, upper) == Digits(val, base, upper))
  {
  }

  lemma LeftStep(val: nat, base: nat, upper: bool)
    requires 2 <= base <= 16 && val > 0
    ensures Left(val, base, upper) == Left(val / base, base, upper) + [DigitChar(val % base, upper)] && val / base < val
  {
    hide Digits;
    DivSmaller(val, base);
    DigitsUnfold(val, base, upper);
  }

  lemma DivSmaller(val: nat, base: nat)
    requires base >= 2 && val > 0
    ensures val / base < val && (val < base <==> val / base == 0)
  {
    DivMod(val, base);
    var q := val / base;
    if q > 0 { Product(q, base); }
  }

  lemma Product(q: nat, base: nat)
    requires q > 0 && base >= 2
    ensures q * base >= base && q * base > q
  {
    MulGrows(base, q);
    assert q * base == (q - 1) * base + base;
    MulGrows(q, base - 1);
    assert q * base == q * (base - 1) + q;
  }

  /** Fills `tmp` with the digits, least significant first; never more than 20 of them. */
  method Convert(value: nat, base: nat, upper: bool, tmp: array<char>) returns (tlen: nat)
    requires value <= ULONG_MAX && (base == 10 || base == 16) && tmp.Length == 32
    modifies tmp
    ensures tlen == |Digits(value, base, upper)| <= 20
    ensures forall k :: 0 <= k < tlen ==> tmp[k] == Digits(value, base, upper)[tlen - 1 - k]
  {
    hide Digits, Left, DigitChar;
    ghost var all := Digits(value, base, upper);
    WordLength(value, base, upper);
    LeftEnds(value, base, upper);
    tlen := 0;
    if value == 0 {
      tmp[0] := '0';
      return 1;
    }
    assert all[..|all|] == all;
    var val: nat := value;
    while val != 0
      invariant |Left(val, base, upper)| + tlen == |all| && Left(val, base, upper) == all[..|all| - tlen]
      invariant forall k :: 0 <= k < tlen ==> tmp[k] == all[|all| - 1 - k]
      decreases val
    {
      LeftStep(val, base, upper);
      tmp[tlen] := DigitChar(val % base, upper);
      tlen := tlen + 1;
      val := val / base;
    }
    LeftEnds(0, base, upper);
  }

  method PadBlanks(buf: array<char>, pos: nat, maxlen: nat, len: nat, width: nat, ghost text: string) returns (n: nat)
    requires Emitted(buf, pos, maxlen, text)
    modifies buf
    ensures Emitted(buf, n, maxlen, text + Repeat(' ', Fill(len, width)))
  {
    n := pos;
    var total := len;
    ghost var done := "";
    assert text + done == text;
    while total < width
      invariant len <= total && (total <= width || total == len)
      invariant done == Repeat(' ', total - len) && Emitted(buf, n, maxlen, text + done)
    {
      n := Out(buf, n, maxlen, ' ', text + done);
      assert text + done + [' '] == text + (done + [' ']);
      done := done + [' '];
      total := total + 1;
    }
  }

  method PadZeros(buf: array<char>, pos: nat, maxlen: nat, len: nat, width: nat, ghost text: string) returns (n: nat)
    requires Emitted(buf, pos, maxlen, text)
    modifies buf
    ensures Emitted(buf, n, maxlen, text + Repeat('0', Fill(len, width)))
  {
    n := pos;
    var w := width;
    ghost var done := "";
    assert text + done == text;
    while len < w
      invariant w <= width && (len <= w || w == width)
      invariant done == Repeat('0', width - w) && Emitted(buf, n, maxlen, text + done)
    {
      n := Out(buf, n, maxlen, '0', text + done);
      assert text + done + ['0'] == text + (done + ['0']);
      done := done + ['0'];
      w := w - 1;
    }
  }

  method PutDigits(buf: array<char>, pos: nat, maxlen: nat, tmp: array<char>, tlen: nat, ghost digits: string, ghost text: string) returns (n: nat)
    requires Emitted(buf, pos, maxlen, text) && tmp != buf && tlen == |digits| <= tmp.Length
    requires forall k :: 0 <= k < tlen ==> tmp[k] == digits[tlen - 1 - k]
    modifies buf
    ensures Emitted(buf, n, maxlen, text + digits)
  {
    n := pos;
    var k := tlen;
    assert text + digits[..0] == text;
    while k > 0
      invariant 0 <= k <= tlen && Emitted(buf, n, maxlen, text + digits[..tlen - k])
    {
      k := k - 1;
      n := Out(buf, n, maxlen, tmp[k], text + digits[..tlen - k - 1]);
      assert text + digits[..tlen - k - 1] + [tmp[k]] == text + digits[..tlen - k];
    }
    assert digits[..tlen] == digits;
  }

  method Terminate(buf: array<char>, pos: nat, maxlen: nat)
    requires maxlen <= buf.Length
    modifies buf
    ensures maxlen > 0 ==> buf[if pos < maxlen then pos else maxlen - 1] == '\0'
    ensures pos < maxlen ==> buf[..pos] == old(buf[..pos])
    ensures maxlen == 0 ==> buf[..] == old(buf[..])
  {
    if pos < maxlen { buf[pos] := '\0'; } else if maxlen > 0 { buf[maxlen - 1] := '\0'; }
  }

  /** The integer branch from an empty buffer to the terminator: the text, cut to what fits. */
  method PrintInteger(buf: array<char>, maxlen: nat, neg: bool, val: nat, base: nat, upper: bool, zero: bool, width: nat) returns (n: nat)
    requires maxlen <= buf.Length && val <= ULONG_MAX && (base == 10 || base == 16)
    modifies buf
    ensures var s := Text(neg, val, base, upper, zero, width);
      n == (if |s| < maxlen then |s| else if maxlen > 0 then maxlen - 1 else 0) && buf[..n] == s[..n]
    ensures maxlen > 0 ==> n < maxlen && buf[n] == '\0'
  {
    hide Text;
    n := PrintText(buf, maxlen, neg, val, base, upper, zero, width);
    Terminate(buf, n, maxlen);
  }

  method PrintText(buf: array<char>, maxlen: nat, neg: bool, val: nat, base: nat, upper: bool, zero: bool, width: nat) returns (n: nat)
    requires maxlen <= buf.Length && val <= ULONG_MAX && (base == 10 || base == 16)
    modifies buf
    ensures Emitted(buf, n, maxlen, Text(neg, val, base, upper, zero, width))
  {
    hide Digits, Emitted, Repeat, Text;
    var tmp := new char[32];
    var tlen := Convert(val, base, upper, tmp);
    ghost var digits := Digits(val, base, upper);
    TextPieces(neg, val, base, upper, zero, width);
    n := PutHead(buf, maxlen, neg, tlen + if neg then 1 else 0, zero, width);
    ghost var fill := Fill(tlen + (if neg then 1 else 0), width);
    n := PutDigits(buf, n, maxlen, tmp, tlen, digits, Head(neg, fill, zero));
  }

  /** What comes before the digits. */
  function Head(neg: bool, fill: nat, zero: bool): string {
    (if zero then "" else Repeat(' ', fill)) + (if neg then "-" else "") + (if zero then Repeat('0', fill) else "")
  }

  method PutHead(buf: array<char>, maxlen: nat, neg: bool, len: nat, zero: bool, width: nat) returns (n: nat)
    requires maxlen <= buf.Length
    modifies buf
    ensures Emitted(buf, n, maxlen, Head(neg, Fill(len, width), zero))
  {
    EmittedNone(buf, maxlen);
    hide Emitted, Repeat;
    ghost var fill := Fill(len, width);
    ghost var lead, sign := if zero then "" else Repeat(' ', fill), if neg then "-" else "";
    n := 0;
    if !zero { n := PadBlanks(buf, n, maxlen, len, width, ""); }
    assert "" + lead == lead && lead + "" == lead;
    if neg { n := Out(buf, n, maxlen, '-', lead); }
    assert lead + sign + "" == lead + sign;
    if zero { n := PadZeros(buf, n, maxlen, len, width, lead + sign); }
  }

  lemma TextPieces(neg: bool, val: nat, base: nat, upper: bool, zero: bool, width: nat)
    requires 2 <= base <= 16
    ensures var digits := Digits(val, base, upper);
      Text(neg, val, base, upper, zero, width) == Head(neg, Fill(|digits| + (if neg then 1 else 0), width), zero) + digits
  {
    hide Digits;
  }

  /** `%ld` into a buffer with room, then `strtol` in base 10: every long but the smallest comes back. */
  method PrintParse(buf: array<char>, value: int, zero: bool, width: nat) returns (r: Parse)
    requires -9223372036854775807 <= value <= 9223372036854775807
    requires |Text(value < 0, if value < 0 then -value else value, 10, false, zero, width)| < buf.Length
    modifies buf
    ensures r.Parsed? && r.value == value
  {
    var n := PrintInteger(buf, buf.Length, value < 0, if value < 0 then -value else value, 10, false, zero, width);
    TextParses(value < 0, if value < 0 then -value else value, 10, false, zero, width);
    ghost var s := Text(value < 0, if value < 0 then -value else value, 10, false, zero, width);
    assert s[..n] == s;
    r := Strtol(buf[..n], 10);
  }
}
