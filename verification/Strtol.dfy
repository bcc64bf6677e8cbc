/**
 How `strtol` of src/ffi/stubs.c relates to section 7.22.1.4 of C11: the value and the end that section
 prescribes, with white space as this code takes it, and exactly when the two agree.
 */
module Strtol {
  import opened Stdio

  // ---- What C11 prescribes ----

  /** Letters stand for 10 to 35. */
  function LetterValue(c: char): int {
    if '0' <= c <= '9' then (c - '0') as int
    else if 'a' <= c <= 'z' then (c - 'a') as int + 10
    else if 'A' <= c <= 'Z' then (c - 'A') as int + 10
    else -1
  }

  predicate Digit(c: char, base: nat) { 0 <= LetterValue(c) < base }

  /** End of the longest run of digits of `base`. */
  function DigitsEnd(s: string, i: nat, base: nat): (k: nat)
    requires i <= |s|
    ensures i <= k <= |s| && (forall j :: i <= j < k ==> Digit(s[j], base)) && (k < |s| ==> !Digit(s[k], base))
    decreases |s| - i
  {
    if i < |s| && Digit(s[i], base) then DigitsEnd(s, i + 1, base) else i
  }

  function Number(s: string, base: nat): int {
    if s == [] then 0 else Number(s[..|s| - 1], base) * base + LetterValue(s[|s| - 1])
  }

  predicate HasX(s: string, j: nat) { j + 1 < |s| && s[j] == '0' && (s[j + 1] == 'x' || s[j + 1] == 'X') }

  predicate HexAt(s: string, i: nat) { i < |s| && Digit(s[i], 16) }

  /** Where the digits begin and in which base: "0x" belongs to the number only in front of a hexadecimal digit. */
  function Form(s: string, j: nat, base: nat): (r: (nat, nat))
    requires j <= |s|
    ensures j <= r.0 <= |s|
  {
    if (base == 0 || base == 16) && HasX(s, j) && HexAt(s, j + 2) then (j + 2, 16)
    else if base != 0 then (j, base)
    else if j < |s| && s[j] == '0' then (j, 8)
    else (j, 10)
  }

  /** The value, before any limit of `long`, and the end; without digits the value is zero and the end the start of the text. */
  function Prescribed(s: string, base: nat): (int, nat) {
    var (from, b) := Form(s, Start(s), base);
    var end := DigitsEnd(s, from, b);
    if end == from then (0, 0)
    else
      var v := Number(s[from..end], b);
      (if Negative(s) then -v else v, end)
  }

  // ---- When this code does that ----

  /** The base in which digits are read when there is no "0x". */
  function PlainBase(s: string, j: nat, base: nat): nat {
    if base != 0 then base else if j < |s| && s[j] == '0' then 8 else 10
  }

  /**
   With "0x" and base 16 no hexadecimal digit follows; with "0x" and base 0 one does; otherwise there is a digit, or
   nothing before it, and the digits this code knows are not followed by a letter that is one as well.
   */
  predicate Conforms(s: string, base: nat) {
    var j := Start(s);
    if base == 16 && HasX(s, j) then !HexAt(s, j + 2)
    else if base == 0 && HasX(s, j) then HexAt(s, j + 2)
    else
      var b := PlainBase(s, j, base);
      var end := RunEnd(s, j, b);
      (j == 0 || (j < |s| && Digit(s[j], b))) && (end == |s| || !Digit(s[end], b))
  }

  /** Both kinds of digit agree below 16; this code has no others. */
  lemma DigitKinds(c: char, base: nat)
    ensures IsDigit(c, base) ==> Digit(c, base) && LetterValue(c) == DigitValue(c)
    ensures base <= 16 ==> (IsDigit(c, base) <==> Digit(c, base))
  {
  }

  lemma {:induction false} RunsAgree(s: string, i: nat, base: nat)
    requires i <= |s|
    ensures var end := RunEnd(s, i, base);
      end <= DigitsEnd(s, i, base) && (end == DigitsEnd(s, i, base) <==> end == |s| || !Digit(s[end], base))
    decreases |s| - i
  {
    if i < |s| {
      DigitKinds(s[i], base);
      if IsDigit(s[i], base) { RunsAgree(s, i + 1, base); }
    }
  }

  lemma {:induction false} NumberIsVal(s: string, base: nat)
    requires AllDigits(s, base)
    ensures Number(s, base) == Val(s, base)
  {
    if s != [] {
      DigitKinds(s[|s| - 1], base);
      NumberIsVal(s[..|s| - 1], base);
    }
  }

  /** From the same place in the same base the two agree when their runs end together, not empty unless at the start. */
  lemma FromSame(s: string, from: nat, b: nat)
    requires from <= |s|
    ensures var (mine, theirs) := (RunEnd(s, from, b), DigitsEnd(s, from, b));
      && (mine == theirs ==> AllDigits(s[from..theirs], b) && Number(s[from..theirs], b) == Val(s[from..mine], b))
      && mine <= theirs && (mine == theirs <==> mine == |s| || !Digit(s[mine], b))
  {
    RunsAgree(s, from, b);
    NumberIsVal(s[from..RunEnd(s, from, b)], b);
  }

  predicate InRange(v: int) { -9223372036854775807 <= v <= 9223372036854775807 }

  ghost predicate Agrees(s: string, base: nat) {
    var (v, end) := Prescribed(s, base); StrtolOf(s, base) == Parsed(v, end)
  }

  /** Both read the same digits: they agree unless the text has none and does not start here, or the number is out of range. */
  lemma SameDigits(s: string, base: nat, from: nat, b: nat)
    requires from <= |s| && Prefix(s, Start(s), base) == (from, b) && Form(s, Start(s), base) == (from, b)
    requires RunEnd(s, from, b) == DigitsEnd(s, from, b)
    ensures Agrees(s, base) <==> (from == 0 || RunEnd(s, from, b) > from) && InRange(Prescribed(s, base).0)
  {
    FromSame(s, from, b);
    hide Val, Number, RunEnd, DigitsEnd, Prefix, Form, Start, Negative, AllDigits;
    if RunEnd(s, from, b) == from {
      assert s[from..from] == [];
      ValEmpty(b);
    }
  }

  /** This code stops before a digit: the ends differ. */
  lemma FewerDigits(s: string, base: nat, from: nat, b: nat)
    requires from <= |s| && Prefix(s, Start(s), base) == (from, b) && Form(s, Start(s), base) == (from, b)
    requires RunEnd(s, from, b) < DigitsEnd(s, from, b)
    ensures !Agrees(s, base)
  {
    hide Val, Number, RunEnd, DigitsEnd, Prefix, Form, Start, Negative, AllDigits;
  }

  lemma PlainExactly(s: string, base: nat)
    requires !HasX(s, Start(s)) || (base != 0 && base != 16)
    ensures Agrees(s, base) <==> Conforms(s, base) && InRange(Prescribed(s, base).0)
  {
    var j := Start(s);
    var b := PlainBase(s, j, base);
    FromSame(s, j, b);
    DigitHere(s, j, b);
    hide Val, Number, RunEnd, DigitsEnd, Start, Negative, AllDigits, Digit, IsDigit, Agrees, Prescribed;
    if RunEnd(s, j, b) == DigitsEnd(s, j, b) { SameDigits(s, base, j, b); } else { FewerDigits(s, base, j, b); }
  }

  lemma DigitHere(s: string, j: nat, b: nat)
    requires j <= |s|
    ensures DigitsEnd(s, j, b) > j <==> j < |s| && Digit(s[j], b)
  {
  }

  /** The "0x" in front of base-16 digits is not skipped: the value is zero and the end before the x, for every text. */
  lemma HexPrefixStops(s: string)
    requires HasX(s, Start(s))
    ensures StrtolOf(s, 16) == Parsed(0, Start(s) + 1)
  {
    var j := Start(s);
    ZeroThenX(s, j, 16);
    hide RunEnd, Start, Negative, Val, AllDigits;
    assert s[j..j + 1] == "0";
    ZeroVal(16);
  }

  lemma ZeroVal(b: nat)
    requires b > 0
    ensures AllDigits("0", b) && Val("0", b) == 0
  {
    assert "0" == [] + ['0'];
    ValAppend([], '0', b);
    ValEmpty(b);
  }

  lemma ZeroThenX(s: string, j: nat, b: nat)
    requires HasX(s, j) && 0 < b <= 33
    ensures RunEnd(s, j, b) == j + 1 && DigitsEnd(s, j, b) == j + 1
  {
    assert RunEnd(s, j + 1, b) == j + 1;
    assert !Digit(s[j + 1], b) && DigitsEnd(s, j + 1, b) == j + 1;
  }

  lemma Hex16Exactly(s: string)
    requires HasX(s, Start(s))
    ensures Agrees(s, 16) <==> Conforms(s, 16) && InRange(Prescribed(s, 16).0)
  {
    var j := Start(s);
    HexPrefixStops(s);
    if HexAt(s, j + 2) {
      DigitHere(s, j + 2, 16);
      hide StrtolOf, Start, Number, Negative;
    } else {
      ZeroThenX(s, j, 16);
      SameDigits(s, 16, j, 16);
    }
  }

  lemma Hex0Exactly(s: string)
    requires HasX(s, Start(s))
    ensures Agrees(s, 0) <==> Conforms(s, 0) && InRange(Prescribed(s, 0).0)
  {
    hide Val, Number, Start, Negative, AllDigits, RunEnd, DigitsEnd, Digit, Agrees, Prescribed;
    var j := Start(s);
    if HexAt(s, j + 2) {
      HexRuns(s, j + 2);
      DigitHere(s, j + 2, 16);
      SameDigits(s, 0, j + 2, 16);
    } else {
      BarePrefix(s);
    }
  }

  /** "0x" without a hexadecimal digit, base 0: both read a zero, but this code goes past the x. */
  lemma BarePrefix(s: string)
    requires HasX(s, Start(s)) && !HexAt(s, Start(s) + 2)
    ensures !Agrees(s, 0)
  {
    var j := Start(s);
    ZeroThenX(s, j, 8);
    HexRuns(s, j + 2);
    DigitHere(s, j + 2, 16);
    hide Val, Number, Start, Negative, AllDigits, RunEnd, DigitsEnd;
  }

  lemma HexRuns(s: string, i: nat)
    requires i <= |s|
    ensures RunEnd(s, i, 16) == DigitsEnd(s, i, 16)
  {
    FromSame(s, i, 16);
    if RunEnd(s, i, 16) < |s| { DigitKinds(s[RunEnd(s, i, 16)], 16); }
  }

  /**
   For every text and every base C11 defines: this code returns the prescribed value and end if and only if the
   text conforms and the value is in range.
   */
  lemma Exactly(s: string, base: nat)
    requires base == 0 || 2 <= base <= 36
    ensures Agrees(s, base) <==> Conforms(s, base) && InRange(Prescribed(s, base).0)
  {
    hide Agrees, Conforms, Prescribed, Start, InRange;
    if HasX(s, Start(s)) && base == 16 { Hex16Exactly(s); }
    else if HasX(s, Start(s)) && base == 0 { Hex0Exactly(s); }
    else { PlainExactly(s, base); }
  }

  /** A "0x" prefix with base 16. */
  lemma PrefixDeparts()
    ensures StrtolOf("0x1f", 16) == Parsed(0, 1) && Prescribed("0x1f", 16) == (31, 4)
  {
    var s := "0x1f";
    assert Start(s) == 0 && HasX(s, 0);
    HexPrefixStops(s);
    assert DigitsEnd(s, 4, 16) == 4 && DigitsEnd(s, 3, 16) == 4 && DigitsEnd(s, 2, 16) == 4;
    assert s[2..4] == "1f" && "1f"[..1] == "1" && "1"[..0] == "";
    assert Number("1", 16) == 1;
  }

  /** A bare prefix with base 0. */
  lemma BarePrefixDeparts()
    ensures StrtolOf("0x", 0) == Parsed(0, 2) && Prescribed("0x", 0) == (0, 1)
  {
    var s := "0x";
    assert Start(s) == 0 && HasX(s, 0) && !HexAt(s, 2);
    ZeroThenX(s, 0, 8);
    assert s[0..1] == "0" && "0"[..0] == "";
  }

  /** No number at all. */
  lemma BlanksDepart()
    ensures StrtolOf("  ", 10) == Parsed(0, 2) && Prescribed("  ", 10) == (0, 0)
  {
  }

  /** A letter beyond f. */
  lemma LetterDeparts()
    ensures StrtolOf("z", 36) == Parsed(0, 0) && Prescribed("z", 36) == (35, 1)
  {
    var s := "z";
    assert Start(s) == 0 && DigitsEnd(s, 1, 36) == 1 && DigitsEnd(s, 0, 36) == 1;
    assert s[0..1] == "z" && "z"[..0] == "";
  }
}
