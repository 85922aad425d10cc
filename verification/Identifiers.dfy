/** SIREN and SIRET check digits: the Luhn loop, and the slips it catches. */
module Identifiers {
  import opened DecimalText

  const LA_POSTE_SIREN := "356000000"

  predicate IsSeparator(c: char) {
    IsSpace(c) || c == '.' || c == '-' || c == '/'
  }

  function StripFormatting(raw: string): string {
    if raw == "" then ""
    else (if IsSeparator(raw[0]) then "" else [raw[0]]) + StripFormatting(raw[1..])
  }

  // ---------------------------------------------------------------------- the two sums

  /** A digit's share, doubled or not; a doubled digit above nine loses nine. */
  function Share(value: nat, doubled: bool): (share: nat)
    requires value < 10
    ensures share < 10
  {
    if !doubled then value else if 2 * value > 9 then 2 * value - 9 else 2 * value
  }

  /** The shares of all digits, the rightmost being doubled or not and its neighbours alternating. */
  function LuhnSum(digits: string, doubled: bool): nat
    requires AllDigits(digits)
  {
    if digits == "" then 0
    else Share(DigitValue(digits[|digits| - 1]), doubled) + LuhnSum(digits[..|digits| - 1], !doubled)
  }

  method PassesLuhn(digits: string) returns (passes: bool)
    requires AllDigits(digits)
    ensures passes == (LuhnSum(digits, false) % 10 == 0)
  {
    var total, doubled := 0, false;
    var i := |digits|;
    assert digits[..i] == digits;
    while i > 0
      invariant 0 <= i <= |digits|
      invariant total + LuhnSum(digits[..i], doubled) == LuhnSum(digits, false)
    {
      i := i - 1;
      assert digits[..i + 1][..i] == digits[..i];
      var value := DigitValue(digits[i]);
      if doubled {
        value := value * 2;
        if value > 9 {
          value := value - 9;
        }
      }
      total := total + value;
      doubled := !doubled;
    }
    passes := total % 10 == 0;
  }

  function DigitSum(digits: string): nat
    requires AllDigits(digits)
  {
    if digits == "" then 0 else DigitSum(digits[..|digits| - 1]) + DigitValue(digits[|digits| - 1])
  }

  method ComputeDigitSum(digits: string) returns (total: nat)
    requires AllDigits(digits)
    ensures total == DigitSum(digits)
  {
    total := 0;
    for i := 0 to |digits|
      invariant total == DigitSum(digits[..i])
    {
      assert digits[..i + 1][..i] == digits[..i];
      total := total + DigitValue(digits[i]);
    }
    assert digits[..|digits|] == digits;
  }

  // ---------------------------------------------------------------------- the validators

  predicate IsSiren(s: string) {
    AllDigits(s) && |s| == 9 && (s == LA_POSTE_SIREN || LuhnSum(s, false) % 10 == 0)
  }

  predicate IsLaPoste(s: string) {
    LA_POSTE_SIREN <= s
  }

  /** Establishments of La Poste follow a rule of their own. */
  predicate IsSiret(s: string) {
    && AllDigits(s) && |s| == 14
    && (if IsLaPoste(s) then DigitSum(s) % 5 == 0 else LuhnSum(s, false) % 10 == 0)
  }

  method ValidateSiren(raw: string) returns (valid: bool, normalised: string)
    ensures Trim(raw) == "" ==> !valid && normalised == ""
    ensures Trim(raw) != "" ==> normalised == StripFormatting(raw) && (valid <==> IsSiren(normalised))
  {
    if Trim(raw) == "" {
      return false, "";
    }
    normalised := StripFormatting(raw);
    if normalised == "" || !AllDigits(normalised) || |normalised| != 9 {
      return false, normalised;
    }
    if normalised == LA_POSTE_SIREN {
      return true, normalised;
    }
    valid := PassesLuhn(normalised);
  }

  method ValidateSiret(raw: string) returns (valid: bool, normalised: string)
    ensures Trim(raw) == "" ==> !valid && normalised == ""
    ensures Trim(raw) != "" ==> normalised == StripFormatting(raw) && (valid <==> IsSiret(normalised))
  {
    if Trim(raw) == "" {
      return false, "";
    }
    normalised := StripFormatting(raw);
    if normalised == "" || !AllDigits(normalised) || |normalised| != 14 {
      return false, normalised;
    }
    if IsLaPoste(normalised) {
      var total := ComputeDigitSum(normalised);
      valid := total % 5 == 0;
    } else {
      valid := PassesLuhn(normalised);
    }
  }

  // ---------------------------------------------------------------------- what is caught

  /** Whether a digit is doubled depends only on how many stand to its right. */
  lemma {:induction false} LuhnSplits(a: string, b: string, doubled: bool)
    requires AllDigits(a) && AllDigits(b)
    ensures AllDigits(a + b)
    ensures LuhnSum(a + b, doubled) == LuhnSum(b, doubled) + LuhnSum(a, doubled != (|b| % 2 == 1))
  {
    if b == "" {
      assert a + b == a;
    } else {
      LuhnSplits(a, b[..|b| - 1], !doubled);
      assert (a + b)[..|a + b| - 1] == a + b[..|b| - 1];
    }
  }

  lemma LuhnOfParts(p: string, middle: string, rest: string)
    requires AllDigits(p) && AllDigits(middle) && AllDigits(rest)
    ensures AllDigits(p + middle + rest)
    ensures LuhnSum(p + middle + rest, false) ==
              LuhnSum(rest, false) + LuhnSum(middle, |rest| % 2 == 1) + LuhnSum(p, (|rest| % 2 == 1) != (|middle| % 2 == 1))
  {
    LuhnSplits(p + middle, rest, false);
    LuhnSplits(p, middle, |rest| % 2 == 1);
  }

  lemma LuhnOfOne(c: char, doubled: bool)
    requires IsDigit(c)
    ensures LuhnSum([c], doubled) == Share(DigitValue(c), doubled)
  {
    assert [c][..0] == "";
  }

  lemma LuhnOfTwo(c: char, d: char, doubled: bool)
    requires IsDigit(c) && IsDigit(d)
    ensures LuhnSum([c, d], doubled) == Share(DigitValue(d), doubled) + Share(DigitValue(c), !doubled)
  {
    assert [c, d][..1] == [c];
    LuhnOfOne(c, !doubled);
  }

  /** What replacing one digit does to the sum. */
  lemma LuhnChanges(s: string, i: nat, c: char)
    requires AllDigits(s) && i < |s| && IsDigit(c)
    ensures AllDigits(s[i := c])
    ensures var doubled := (|s| - 1 - i) % 2 == 1;
            LuhnSum(s[i := c], false) + Share(DigitValue(s[i]), doubled) == LuhnSum(s, false) + Share(DigitValue(c), doubled)
  {
    hide LuhnSum, Share;
    var p, rest := s[..i], s[i + 1..];
    assert s == p + [s[i]] + rest && s[i := c] == p + [c] + rest;
    LuhnOfParts(p, [s[i]], rest);
    LuhnOfParts(p, [c], rest);
    LuhnOfOne(s[i], |rest| % 2 == 1);
    LuhnOfOne(c, |rest| % 2 == 1);
  }

  /** Any single digit replaced by another changes the outcome of a passing number. */
  lemma LuhnCatchesOneChange(s: string, i: nat, c: char)
    requires AllDigits(s) && i < |s| && IsDigit(c) && c != s[i] && LuhnSum(s, false) % 10 == 0
    ensures LuhnSum(s[i := c], false) % 10 != 0
  {
    hide LuhnSum, Share;
    LuhnChanges(s, i, c);
    var doubled := (|s| - 1 - i) % 2 == 1;
    SharesDiffer(DigitValue(s[i]), DigitValue(c), doubled);
    DifferenceShows(LuhnSum(s, false) - Share(DigitValue(s[i]), doubled), Share(DigitValue(s[i]), doubled), Share(DigitValue(c), doubled));
  }

  lemma DifferenceShows(others: int, x: nat, y: nat)
    requires x < 10 && y < 10
    ensures (others + x) % 10 == (others + y) % 10 <==> x == y
  {}

  lemma SharesDiffer(x: nat, y: nat, doubled: bool)
    requires x < 10 && y < 10 && x != y
    ensures Share(x, doubled) != Share(y, doubled)
  {}

  function Swapped(s: string, i: nat): string
    requires i + 1 < |s|
  {
    s[i := s[i + 1]][i + 1 := s[i]]
  }

  /** Two neighbours swapped go unnoticed exactly when they are equal, or 0 and 9. */
  lemma LuhnCatchesSwapIff(s: string, i: nat)
    requires AllDigits(s) && i + 1 < |s| && LuhnSum(s, false) % 10 == 0
    ensures AllDigits(Swapped(s, i))
    ensures LuhnSum(Swapped(s, i), false) % 10 == 0 <==>
              s[i] == s[i + 1] || (s[i] == '0' && s[i + 1] == '9') || (s[i] == '9' && s[i + 1] == '0')
  {
    hide LuhnSum, Share;
    var p, rest := s[..i], s[i + 2..];
    assert s == p + [s[i], s[i + 1]] + rest && Swapped(s, i) == p + [s[i + 1], s[i]] + rest;
    LuhnOfParts(p, [s[i], s[i + 1]], rest);
    LuhnOfParts(p, [s[i + 1], s[i]], rest);
    var doubled := |rest| % 2 == 1;
    LuhnOfTwo(s[i], s[i + 1], doubled);
    LuhnOfTwo(s[i + 1], s[i], doubled);
    SwapShares(LuhnSum(rest, false) + LuhnSum(p, doubled), DigitValue(s[i]), DigitValue(s[i + 1]), doubled);
  }

  /** A share modulo ten: doubling adds the digit itself below five, and one more from there on. */
  lemma SwapShares(others: nat, x: nat, y: nat, doubled: bool)
    requires x < 10 && y < 10
    ensures (others + Share(y, doubled) + Share(x, !doubled)) % 10 == (others + Share(x, doubled) + Share(y, !doubled)) % 10 <==>
              x == y || (x == 0 && y == 9) || (x == 9 && y == 0)
  {
    assert Share(x, true) == (if x < 5 then 2 * x else 2 * x - 9) && Share(y, true) == (if y < 5 then 2 * y else 2 * y - 9);
    assert Share(x, false) == x && Share(y, false) == y;
    hide Share;
  }

  // ---------------------------------------------------------------------- La Poste

  /** The SIREN exception admits nothing new: La Poste's own number passes the Luhn rule. */
  lemma SirenIsLuhn(s: string)
    ensures IsSiren(s) <==> AllDigits(s) && |s| == 9 && LuhnSum(s, false) % 10 == 0
  {
    LaPostePasses();
    hide LuhnSum;
  }

  lemma {:induction false} LuhnOfZeros(zeros: string, doubled: bool)
    requires forall k :: 0 <= k < |zeros| ==> zeros[k] == '0'
    ensures AllDigits(zeros) && LuhnSum(zeros, doubled) == 0
  {
    if zeros != "" {
      LuhnOfZeros(zeros[..|zeros| - 1], !doubled);
    }
  }

  lemma LaPostePasses()
    ensures AllDigits(LA_POSTE_SIREN) && LuhnSum(LA_POSTE_SIREN, false) == 10
  {
    hide LuhnSum;
    assert LA_POSTE_SIREN == "35" + "6" + "000000";
    LuhnOfParts("35", "6", "000000");
    LuhnOfOne('6', false);
    LuhnOfTwo('3', '5', true);
    LuhnOfZeros("000000", false);
  }

  /** So a SIREN with one wrong digit is always refused. */
  lemma SirenCatchesOneChange(s: string, i: nat, c: char)
    requires IsSiren(s) && i < |s| && IsDigit(c) && c != s[i]
    ensures !IsSiren(s[i := c])
  {
    SirenIsLuhn(s);
    SirenIsLuhn(s[i := c]);
    LuhnCatchesOneChange(s, i, c);
  }

  lemma {:induction false} DigitSumSplits(a: string, b: string)
    requires AllDigits(a) && AllDigits(b)
    ensures DigitSum(a + b) == DigitSum(a) + DigitSum(b)
  {
    if b == "" {
      assert a + b == a;
    } else {
      DigitSumSplits(a, b[..|b| - 1]);
      assert (a + b)[..|a + b| - 1] == a + b[..|b| - 1];
    }
  }

  lemma DigitSumChanges(s: string, i: nat, c: char)
    requires AllDigits(s) && i < |s| && IsDigit(c)
    ensures DigitSum(s[i := c]) as int == DigitSum(s) as int - DigitValue(s[i]) as int + DigitValue(c) as int
  {
    var p, rest := s[..i], s[i + 1..];
    assert s == p + [s[i]] + rest && s[i := c] == p + [c] + rest;
    DigitSumSplits(p + [s[i]], rest);
    DigitSumSplits(p, [s[i]]);
    DigitSumSplits(p + [c], rest);
    DigitSumSplits(p, [c]);
    assert [s[i]][..0] == "" && [c][..0] == "";
  }

  /**
   One wrong digit in a SIRET is always refused while both numbers are outside La Poste's range. Inside
   it, it passes exactly when the digits differ by five; across its border, exactly when the sum the
   other rule goes by comes out right.
   */
  lemma SiretCatchesOneChange(s: string, i: nat, c: char)
    requires IsSiret(s) && i < |s| && IsDigit(c) && c != s[i]
    ensures var t, x, y := s[i := c], DigitValue(s[i]), DigitValue(c);
            var doubled := (|s| - 1 - i) % 2 == 1;
            IsSiret(t) <==>
              if IsLaPoste(s) && IsLaPoste(t) then x == y + 5 || y == x + 5
              else if IsLaPoste(t) then (DigitSum(s) - x + y) % 5 == 0
              else if IsLaPoste(s) then (LuhnSum(s, false) - Share(x, doubled) + Share(y, doubled)) % 10 == 0
              else false
  {
    DigitSumChanges(s, i, c);
    LuhnChanges(s, i, c);
    hide DigitSum, LuhnSum, Share, IsLaPoste;
    if !IsLaPoste(s) {
      LuhnCatchesOneChange(s, i, c);
    }
  }

  const SOMEBODYS := "55600000000001"
  const LA_POSTES := "35600000000001"
  const ZEROS := "0000000000"

  /** It happens: one digit away from a number of somebody's stands one of La Poste's, both accepted. */
  lemma SiretSlipPasses()
    ensures IsSiret(SOMEBODYS) && IsSiret(LA_POSTES) && LA_POSTES == SOMEBODYS[0 := '3']
    ensures !IsLaPoste(SOMEBODYS) && IsLaPoste(LA_POSTES)
  {
    hide LuhnSum, DigitSum;
    SlipTexts();
    assert AllDigits("556" + ZEROS + "1") && AllDigits("356" + ZEROS + "1");
    LuhnOfZeros(ZEROS, true);
    LuhnOfParts("556", ZEROS, "1");
    SlipSums();
    DigitSumSplits("356" + ZEROS, "1");
    DigitSumSplits("356", ZEROS);
    DigitSumOfZeros(ZEROS);
  }

  lemma SlipTexts()
    ensures SOMEBODYS == "556" + ZEROS + "1" && LA_POSTES == "356" + ZEROS + "1" && LA_POSTES == SOMEBODYS[0 := '3']
    ensures !IsLaPoste(SOMEBODYS) && IsLaPoste(LA_POSTES)
  {
    assert SOMEBODYS[0] == '5';
  }

  lemma SlipSums()
    ensures LuhnSum("556", true) == 9 && LuhnSum("1", false) == 1
    ensures DigitSum("356") == 14 && DigitSum("1") == 1
  {
    assert "556"[..2] == "55" && "55"[..1] == "5" && "5"[..0] == "";
    assert "356"[..2] == "35" && "35"[..1] == "3" && "3"[..0] == "" && "1"[..0] == "";
    assert DigitSum("3") == 3 && DigitSum("35") == 8;
    assert LuhnSum("5", true) == 1 && LuhnSum("55", false) == 6;
  }

  lemma {:induction false} DigitSumOfZeros(zeros: string)
    requires forall k :: 0 <= k < |zeros| ==> zeros[k] == '0'
    ensures AllDigits(zeros) && DigitSum(zeros) == 0
  {
    if zeros != "" {
      DigitSumOfZeros(zeros[..|zeros| - 1]);
    }
  }

}
