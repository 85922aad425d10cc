/** The check digits of an account number: the digit loop is a big remainder, and what it can and cannot catch. */
module Iban {
  import opened DecimalText

  // ---------------------------------------------------------------------- shape

  predicate IsUpper(c: char) {
    'A' <= c <= 'Z'
  }

  predicate IsAlphanumeric(c: char) {
    IsUpper(c) || IsDigit(c)
  }

  /** Two letters, two digits, then ten to thirty of either. */
  predicate HasShape(s: string) {
    && 14 <= |s| <= 34
    && IsUpper(s[0]) && IsUpper(s[1]) && IsDigit(s[2]) && IsDigit(s[3])
    && forall k :: 4 <= k < |s| ==> IsAlphanumeric(s[k])
  }

  function Stripped(raw: string): string {
    if raw == "" then ""
    else (if IsSpace(raw[0]) || raw[0] == '-' then "" else [raw[0]]) + Stripped(raw[1..])
  }

  /**
   Upper-casing, exactly for every character that becomes letters from A to Z. What the others become
   is never a letter or digit of the pattern, so they may as well stay as they are.
   */
  function UpperOf(c: char): string {
    if 'a' <= c <= 'z' then [(c as int - 'a' as int + 'A' as int) as char]
    else if c == '\U{0131}' then "I"
    else if c == '\U{017F}' then "S"
    else if c == '\U{00DF}' then "SS"
    else if c == '\U{FB00}' then "FF"
    else if c == '\U{FB01}' then "FI"
    else if c == '\U{FB02}' then "FL"
    else if c == '\U{FB03}' then "FFI"
    else if c == '\U{FB04}' then "FFL"
    else if c == '\U{FB05}' || c == '\U{FB06}' then "ST"
    else [c]
  }

  function Upper(s: string): string {
    if s == "" then "" else UpperOf(s[0]) + Upper(s[1..])
  }

  function Rearranged(s: string): string
    requires |s| >= 4
  {
    s[4..] + s[..4]
  }

  // ---------------------------------------------------------------------- the number it spells

  /** `A` is 10 and `Z` is 35. */
  function ValueOf(c: char): (value: nat)
    requires IsAlphanumeric(c)
    ensures value < 36 && (IsDigit(c) <==> value < 10)
  {
    if IsDigit(c) then DigitValue(c) else c as int - 55
  }

  function Weight(c: char): nat {
    if IsDigit(c) then 10 else 100
  }

  predicate AllAlphanumeric(s: string) {
    forall k :: 0 <= k < |s| ==> IsAlphanumeric(s[k])
  }

  /** The decimal digits of a character. */
  function Digits(c: char): (digits: seq<nat>)
    requires IsAlphanumeric(c)
    ensures forall k :: 0 <= k < |digits| ==> digits[k] < 10
  {
    if IsDigit(c) then [DigitValue(c)] else [ValueOf(c) / 10, ValueOf(c) % 10]
  }

  /** The integer spelled by `s`, letters taking two digits. */
  function Number(s: string): nat
    requires AllAlphanumeric(s)
  {
    if s == "" then 0
    else Number(s[..|s| - 1]) * Weight(s[|s| - 1]) + ValueOf(s[|s| - 1])
  }

  /** The same integer, digit by digit. */
  function Spelt(start: nat, digits: seq<nat>): nat {
    if digits == [] then start else 10 * Spelt(start, digits[..|digits| - 1]) + digits[|digits| - 1]
  }

  lemma DigitsSpellValue(start: nat, c: char)
    requires IsAlphanumeric(c)
    ensures Spelt(start, Digits(c)) == start * Weight(c) + ValueOf(c)
  {
    var digits := Digits(c);
    if IsDigit(c) {
      assert digits[..0] == [];
    } else {
      assert digits[..1] == [ValueOf(c) / 10] && digits[..1][..0] == [];
      assert Spelt(start, digits[..1]) == 10 * start + ValueOf(c) / 10;
    }
  }

  /** The loop of the validator, one digit at a time, never beyond a remainder below 97. */
  method Remainder(s: string) returns (remainder: nat)
    requires AllAlphanumeric(s)
    ensures remainder == Number(s) % 97
  {
    remainder := 0;
    for i := 0 to |s|
      invariant remainder == Number(s[..i]) % 97
    {
      var digits := Digits(s[i]);
      ghost var start := Number(s[..i]);
      assert digits[..0] == [];
      for j := 0 to |digits|
        invariant remainder == Spelt(start, digits[..j]) % 97
      {
        assert digits[..j + 1][..j] == digits[..j];
        RemainderStep(Spelt(start, digits[..j]), digits[j]);
        remainder := (remainder * 10 + digits[j]) % 97;
      }
      assert digits[..|digits|] == digits;
      DigitsSpellValue(start, s[i]);
      assert s[..i + 1][..i] == s[..i];
    }
    assert s[..|s|] == s;
  }

  lemma RemainderStep(n: nat, digit: nat)
    ensures ((n % 97) * 10 + digit) % 97 == (10 * n + digit) % 97
  {
    var q := n / 97;
    assert n == 97 * q + n % 97;
    Multiple(q * 10, (n % 97) * 10 + digit);
  }

  lemma Multiple(q: int, r: int)
    ensures (97 * q + r) % 97 == r % 97
  {}

  predicate Checks(s: string) {
    HasShape(s) && Number(Rearranged(s)) % 97 == 1
  }

  predicate IsValid(raw: string) {
    Checks(Upper(Stripped(raw)))
  }

  method IsValidIban(raw: string) returns (valid: bool)
    ensures valid == IsValid(raw)
  {
    var iban := Upper(Stripped(raw));
    if !HasShape(iban) {
      return false;
    }
    var remainder := Remainder(Rearranged(iban));
    valid := remainder == 1;
  }

  // ---------------------------------------------------------------------- what a slip does to the number

  function Shift(s: string): nat {
    if s == "" then 1 else Shift(s[..|s| - 1]) * Weight(s[|s| - 1])
  }

  lemma {:induction false} NumberSplits(a: string, b: string)
    requires AllAlphanumeric(a) && AllAlphanumeric(b)
    ensures Number(a + b) == Number(a) * Shift(b) + Number(b)
  {
    if b == "" {
      assert a + b == a;
    } else {
      var front, last := b[..|b| - 1], b[|b| - 1];
      assert (a + b)[..|a + b| - 1] == a + front;
      NumberSplits(a, front);
      Distribute(Number(a), Shift(front), Number(front), Weight(last));
    }
  }

  lemma Distribute(a: int, shift: int, n: int, weight: int)
    ensures (a * shift + n) * weight == a * (shift * weight) + n * weight
  {}

  /** Ten has an inverse modulo 97, so a shift never hides a difference. */
  lemma {:induction false} ShiftCancels(d: int, s: string)
    requires (d * Shift(s)) % 97 == 0
    ensures d % 97 == 0
  {
    if s != "" {
      var front, weight := s[..|s| - 1], Weight(s[|s| - 1]);
      Distribute(d, Shift(front), 0, weight);
      WeightCancels(d * Shift(front), weight);
      ShiftCancels(d, front);
    }
  }

  lemma WeightCancels(m: int, weight: nat)
    requires (weight == 10 || weight == 100) && (m * weight) % 97 == 0
    ensures m % 97 == 0
  {
    var q := m * weight / 97;
    assert m * weight == 97 * q;
    if weight == 10 {
      assert m == 68 * (10 * m) - 679 * m;
      assert m == 97 * (68 * q - 7 * m);
    } else {
      assert m == 65 * (100 * m) - 6499 * m;
      assert m == 97 * (65 * q - 67 * m);
    }
  }

  lemma AllJoin(p: string, a: string, rest: string)
    requires AllAlphanumeric(p) && AllAlphanumeric(a) && AllAlphanumeric(rest)
    ensures AllAlphanumeric(p + a) && AllAlphanumeric(p + a + rest)
  {}

  lemma NumberOfParts(p: string, a: string, rest: string)
    requires AllAlphanumeric(p) && AllAlphanumeric(a) && AllAlphanumeric(rest)
    ensures AllAlphanumeric(p + a + rest)
    ensures Number(p + a + rest) == (Number(p) * Shift(a) + Number(a)) * Shift(rest) + Number(rest)
  {
    AllJoin(p, a, rest);
    hide Number, Shift, AllAlphanumeric;
    NumberSplits(p + a, rest);
    NumberSplits(p, a);
  }

  /** Two texts of the same weights before a common rest have the same remainder only if they agree modulo 97. */
  lemma SameRemainder(p: string, a: string, b: string, rest: string)
    requires AllAlphanumeric(p) && AllAlphanumeric(a) && AllAlphanumeric(b) && AllAlphanumeric(rest) && Shift(a) == Shift(b)
    ensures AllAlphanumeric(p + a + rest) && AllAlphanumeric(p + b + rest)
    ensures Number(p + a + rest) % 97 == Number(p + b + rest) % 97 <==> (Number(a) as int - Number(b) as int) % 97 == 0
  {
    hide Number, Shift, AllAlphanumeric;
    NumberOfParts(p, a, rest);
    NumberOfParts(p, b, rest);
    Difference(Number(p), Shift(a), Number(a), Number(b), Shift(rest), Number(rest));
    var x: int, y: int := Number(p + a + rest), Number(p + b + rest);
    var d: int := Number(a) as int - Number(b) as int;
    assert x - y == d * Shift(rest);
    SameModulo(x, y);
    if d % 97 == 0 {
      ShiftedMultiple(d, Shift(rest));
    } else if (d * Shift(rest)) % 97 == 0 {
      ShiftCancels(d, rest);
    }
  }

  lemma Difference(p: int, shift: int, a: int, b: int, rest: int, n: int)
    ensures ((p * shift + a) * rest + n) - ((p * shift + b) * rest + n) == (a - b) * rest
  {}

  lemma ShiftedMultiple(d: int, shift: int)
    requires d % 97 == 0
    ensures (d * shift) % 97 == 0
  {
    var q := d / 97;
    assert d * shift == 97 * (q * shift) + 0;
    Multiple(q * shift, 0);
  }

  lemma SameModulo(x: int, y: int)
    ensures x % 97 == y % 97 <==> (x - y) % 97 == 0
  {}

  lemma OneChar(c: char)
    requires IsAlphanumeric(c)
    ensures Number([c]) == ValueOf(c) && Shift([c]) == Weight(c)
  {
    assert [c][..0] == "";
  }

  lemma TwoChars(c: char, d: char)
    requires IsAlphanumeric(c) && IsAlphanumeric(d)
    ensures Number([c, d]) == ValueOf(c) * Weight(d) + ValueOf(d) && Shift([c, d]) == Weight(c) * Weight(d)
  {
    assert [c, d][..1] == [c];
    OneChar(c);
  }

  lemma ValuesTellApart(c: char, d: char)
    requires IsAlphanumeric(c) && IsAlphanumeric(d)
    ensures ValueOf(c) == ValueOf(d) <==> c == d
  {}

  // ---------------------------------------------------------------------- what is caught

  predicate SameClass(c: char, d: char) {
    (IsDigit(c) && IsDigit(d)) || (IsUpper(c) && IsUpper(d))
  }

  lemma ChangeShows(p: string, c: char, d: char, rest: string)
    requires AllAlphanumeric(p) && AllAlphanumeric(rest) && SameClass(c, d) && c != d
    ensures AllAlphanumeric(p + [c] + rest) && AllAlphanumeric(p + [d] + rest)
    ensures Number(p + [c] + rest) % 97 != Number(p + [d] + rest) % 97
  {
    OneChar(c);
    OneChar(d);
    ValuesTellApart(c, d);
    assert AllAlphanumeric([c]) && AllAlphanumeric([d]);
    hide Number, Shift, AllAlphanumeric;
    SameRemainder(p, [c], [d], rest);
  }

  /** Where a position of the account number goes when the first four characters are moved to the end. */
  lemma RearrangedAt(s: string, i: nat)
    requires HasShape(s) && i < |s|
    ensures var r, j := Rearranged(s), if i < 4 then |s| - 4 + i else i - 4;
            && AllAlphanumeric(r) && |r| == |s| && j < |r| && r[j] == s[i]
            && r == r[..j] + [s[i]] + r[j + 1..]
            && forall c :: Rearranged(s[i := c]) == r[..j] + [c] + r[j + 1..]
  {
    var r, j := Rearranged(s), if i < 4 then |s| - 4 + i else i - 4;
    forall c ensures Rearranged(s[i := c]) == r[..j] + [c] + r[j + 1..] {
      var changed := Rearranged(s[i := c]);
      forall k | 0 <= k < |r| ensures changed[k] == (r[..j] + [c] + r[j + 1..])[k] {}
    }
  }

  /** Every change of one character to another of its class is caught, at any length. */
  lemma OneChangeIsCaught(s: string, i: nat, c: char)
    requires Checks(s) && i < |s| && SameClass(s[i], c) && c != s[i]
    ensures !Checks(s[i := c])
  {
    RearrangedAt(s, i);
    var r, j := Rearranged(s), if i < 4 then |s| - 4 + i else i - 4;
    assert AllAlphanumeric(r[..j]) && AllAlphanumeric(r[j + 1..]);
    hide Number, Rearranged;
    ChangeShows(r[..j], s[i], c, r[j + 1..]);
  }

  /** A digit next to the letter whose value is eleven times it: 1 and B, 2 and M, 3 and X. */
  predicate Confusable(c: char, d: char) {
    || (c == '1' && d == 'B') || (c == '2' && d == 'M') || (c == '3' && d == 'X')
    || (d == '1' && c == 'B') || (d == '2' && c == 'M') || (d == '3' && c == 'X')
  }

  lemma SwapShows(p: string, c: char, d: char, rest: string)
    requires AllAlphanumeric(p) && AllAlphanumeric(rest) && IsAlphanumeric(c) && IsAlphanumeric(d)
    ensures AllAlphanumeric(p + [c, d] + rest) && AllAlphanumeric(p + [d, c] + rest)
    ensures Number(p + [c, d] + rest) % 97 == Number(p + [d, c] + rest) % 97 <==> c == d || Confusable(c, d)
  {
    TwoChars(c, d);
    TwoChars(d, c);
    assert AllAlphanumeric([c, d]) && AllAlphanumeric([d, c]);
    hide Number, Shift, Confusable, AllAlphanumeric;
    SameRemainder(p, [c, d], [d, c], rest);
    SwapDifference(c, d);
  }

  lemma SwapDifference(c: char, d: char)
    requires IsAlphanumeric(c) && IsAlphanumeric(d)
    ensures (ValueOf(c) * Weight(d) + ValueOf(d) as int - (ValueOf(d) * Weight(c) + ValueOf(c)) as int) % 97 == 0 <==>
              c == d || Confusable(c, d)
  {
    ValuesTellApart(c, d);
    if IsDigit(c) && IsDigit(d) {
      TwoDigits(ValueOf(c), ValueOf(d));
    } else if !IsDigit(c) && !IsDigit(d) {
      TwoLetters(ValueOf(c), ValueOf(d));
    } else if IsDigit(c) {
      DigitAndLetter(ValueOf(c), ValueOf(d));
    } else {
      DigitAndLetter(ValueOf(d), ValueOf(c));
    }
  }

  lemma TwoDigits(x: int, y: int)
    requires 0 <= x < 10 && 0 <= y < 10
    ensures (x * 10 + y - (y * 10 + x)) % 97 == 0 <==> x == y
  {}

  lemma TwoLetters(x: int, y: int)
    requires 10 <= x < 36 && 10 <= y < 36
    ensures (x * 100 + y - (y * 100 + x)) % 97 == 0 <==> x == y
  {
    assert x * 100 + y - (y * 100 + x) == 97 * (x - y) + 2 * (x - y);
    Multiple(x - y, 2 * (x - y));
  }

  lemma DigitAndLetter(x: int, y: int)
    requires 0 <= x < 10 && 10 <= y < 36
    ensures (x * 100 + y - (y * 10 + x)) % 97 == 0 <==> y == 11 * x
    ensures (y * 10 + x - (x * 100 + y)) % 97 == 0 <==> y == 11 * x
  {
    var z := 11 * x - y;
    assert x * 100 + y - (y * 10 + x) == 9 * z && y * 10 + x - (x * 100 + y) == -9 * z;
    if (9 * z) % 97 == 0 {
      var q := 9 * z / 97;
      assert z == 97 * (54 * q - 5 * z);
    }
    if (-9 * z) % 97 == 0 {
      var q := -9 * z / 97;
      assert z == 97 * (-54 * q - 5 * z);
    }
  }

  function Swapped(s: string, i: nat): string
    requires i + 1 < |s|
  {
    s[i := s[i + 1]][i + 1 := s[i]]
  }

  lemma RearrangedSwap(s: string, i: nat)
    requires HasShape(s) && i + 1 < |s| && i != 3
    ensures var r, j := Rearranged(s), if i < 4 then |s| - 4 + i else i - 4;
            && j + 2 <= |r|
            && r == r[..j] + [s[i], s[i + 1]] + r[j + 2..]
            && Rearranged(Swapped(s, i)) == r[..j] + [s[i + 1], s[i]] + r[j + 2..]
            && AllAlphanumeric(r)
  {
    var r, j := Rearranged(s), if i < 4 then |s| - 4 + i else i - 4;
    var swapped := Rearranged(Swapped(s, i));
    forall k | 0 <= k < |r| ensures swapped[k] == (r[..j] + [s[i + 1], s[i]] + r[j + 2..])[k] {}
  }

  // ---------------------------------------------------------------------- the neighbours that end up at the two ends

  /** How many decimal digits `s` spells. */
  function Width(s: string): nat {
    if s == "" then 0 else Width(s[..|s| - 1]) + if IsDigit(s[|s| - 1]) then 1 else 2
  }

  /** Ten to the power `n`, modulo 97. */
  function Residue(n: nat): nat {
    if n == 0 then 1 else Residue(n - 1) * 10 % 97
  }

  lemma {:induction false} ShiftResidue(s: string)
    ensures Shift(s) % 97 == Residue(Width(s)) && Width(s) <= 2 * |s|
  {
    if s != "" {
      var front, weight := s[..|s| - 1], Weight(s[|s| - 1]);
      ShiftResidue(front);
      RemainderStep(Shift(front), 0);
      RemainderStep(10 * Shift(front), 0);
      assert Shift(s) == if weight == 10 then 10 * Shift(front) else 10 * (10 * Shift(front));
    }
  }

  /** What every fourth power leaves, from the power 0 to the power 68. */
  const FOURTHS: seq<nat> := [1, 9, 81, 50, 62, 73, 75, 93, 61, 64, 91, 43, 96, 88, 16, 47, 35, 24]

  lemma FourMore(a: nat)
    requires a <= 16
    ensures var r := FOURTHS[a];
            && r * 10 % 97 != 1 && r * 100 % 97 != 1 && r * 1000 % 97 != 1 && r * 10000 % 97 != 1
            && r * 10000 % 97 == FOURTHS[a + 1]
  {}

  lemma NextResidues(n: nat)
    ensures Residue(n + 1) == Residue(n) * 10 % 97 && Residue(n + 2) == Residue(n) * 100 % 97
    ensures Residue(n + 3) == Residue(n) * 1000 % 97 && Residue(n + 4) == Residue(n) * 10000 % 97
  {
    var r := Residue(n);
    RemainderStep(10 * r, 0);
    RemainderStep(100 * r, 0);
    RemainderStep(1000 * r, 0);
    assert Residue(n + 1) == 10 * r % 97;
    assert Residue(n + 2) == 100 * r % 97;
    assert Residue(n + 3) == 1000 * r % 97;
  }

  lemma {:induction false} FourthResidue(a: nat)
    requires a <= 17
    ensures Residue(4 * a) == FOURTHS[a]
  {
    if a > 0 {
      FourthResidue(a - 1);
      NextResidues(4 * (a - 1));
      FourMore(a - 1);
    }
  }

  lemma NotAmongNext(n: nat, r: nat, k: nat)
    requires Residue(n) == r && r * 10 % 97 != 1 && r * 100 % 97 != 1 && r * 1000 % 97 != 1 && r * 10000 % 97 != 1
    requires 1 <= k <= 4
    ensures Residue(n + k) != 1
  {
    NextResidues(n);
  }

  /** Ten has order 96 modulo 97; an account number spells fewer digits than that. */
  lemma NoPowerLeavesOne(n: nat)
    requires 1 <= n <= 68
    ensures Residue(n) != 1
  {
    var a := (n - 1) / 4;
    FourthResidue(a);
    FourMore(a);
    hide Residue;
    NotAmongNext(4 * a, FOURTHS[a], n - 4 * a);
  }

  /** A difference of one digit is invertible modulo 97. */
  lemma DigitCancels(d: int, z: int)
    requires 1 <= d <= 9 && (d * z) % 97 == 0
    ensures z % 97 == 0
  {
    var q := d * z / 97;
    assert d * z == 97 * q;
    var inverse := [1, 49, 65, 73, 39, 81, 14, 85, 54][d - 1];
    assert d * inverse == 97 * (d * inverse / 97) + 1;
    Invert(d, z, inverse, d * inverse / 97, q);
  }

  lemma Invert(d: int, z: int, inverse: int, k: int, q: int)
    requires d * z == 97 * q && d * inverse == 97 * k + 1
    ensures z % 97 == 0
  {
    assert inverse * (d * z) == (d * inverse) * z;
    assert z == 97 * (inverse * q - k * z);
  }

  lemma NumberOfEnds(x: char, m: string, y: char)
    requires IsDigit(x) && AllAlphanumeric(m) && IsDigit(y)
    ensures AllAlphanumeric([x] + m + [y])
    ensures Number([x] + m + [y]) == (DigitValue(x) * Shift(m) + Number(m)) * 10 + DigitValue(y)
  {
    OneChar(x);
    OneChar(y);
    NumberOfParts([x], m, [y]);
    NumberOfParts("", [x], m);
    assert "" + [x] + m == [x] + m;
    NumberSplits([x] + m, [y]);
  }

  lemma EndsFactor(x: int, y: int, shift: int, n: int)
    ensures ((x * shift + n) * 10 + y) - ((y * shift + n) * 10 + x) == (x - y) * (10 * shift - 1)
  {
    assert (x - y) * (10 * shift - 1) == 10 * (x * shift) - 10 * (y * shift) - (x - y);
  }

  lemma EndsDiffer(x: int, y: int, z: int, a: int, b: int)
    requires 0 <= x < 10 && 0 <= y < 10 && z % 97 != 0
    requires a - b == (x - y) * z && a % 97 == b % 97
    ensures x == y
  {
    SameModulo(a, b);
    if x > y {
      DigitCancels(x - y, z);
    } else if x < y {
      assert (y - x) * z == -(a - b);
      DigitCancels(y - x, z);
    }
  }

  lemma ShiftIsNotOne(m: string)
    requires |m| <= 32
    ensures (10 * Shift(m) - 1) % 97 != 0
  {
    ShiftResidue(m);
    NoPowerLeavesOne(Width(m) + 1);
    RemainderStep(Shift(m), 0);
    SameModulo(10 * Shift(m), 1);
    hide Shift, Width;
  }

  /** The fourth character and the fifth become the last and the first. */
  lemma RearrangedEnds(s: string)
    requires HasShape(s)
    ensures var m := s[5..] + s[..3];
            && |m| == |s| - 2 && AllAlphanumeric(m)
            && Rearranged(s) == [s[4]] + m + [s[3]]
            && Rearranged(Swapped(s, 3)) == [s[3]] + m + [s[4]]
  {}

  lemma SwapOfEnds(s: string)
    requires Checks(s)
    ensures Checks(Swapped(s, 3)) <==> s[3] == s[4]
  {
    var m, t := s[5..] + s[..3], Swapped(s, 3);
    assert t[3] == s[4] && t[4] == s[3];
    if s[3] == s[4] {
      assert t == s;
    } else if IsDigit(s[4]) {
      RearrangedEnds(s);
      NumberOfEnds(s[4], m, s[3]);
      NumberOfEnds(s[3], m, s[4]);
      ShiftIsNotOne(m);
      hide Number, Shift, Rearranged, HasShape;
      if Checks(t) {
        EndsFactor(DigitValue(s[4]), DigitValue(s[3]), Shift(m), Number(m));
        EndsDiffer(DigitValue(s[4]), DigitValue(s[3]), 10 * Shift(m) - 1, Number(Rearranged(s)), Number(Rearranged(t)));
      }
    }
  }

  // ---------------------------------------------------------------------- what a swap does

  /**
   Swapping two neighbours goes unnoticed exactly when they are equal or, beyond the first four, one of
   the three pairs of a digit and its elevenfold letter.
   */
  lemma SwapIsCaughtIff(s: string, i: nat)
    requires Checks(s) && i + 1 < |s|
    ensures Checks(Swapped(s, i)) <==> s[i] == s[i + 1] || (i >= 4 && Confusable(s[i], s[i + 1]))
  {
    if i == 3 {
      SwapOfEnds(s);
    } else {
      RearrangedSwap(s, i);
      var r, j := Rearranged(s), if i < 4 then |s| - 4 + i else i - 4;
      SwapKeepsShape(s, i);
      assert AllAlphanumeric(r[..j]) && AllAlphanumeric(r[j + 2..]) && r[j] == s[i] && r[j + 1] == s[i + 1];
      hide Number, Rearranged, Swapped, HasShape;
      SwapShows(r[..j], s[i], s[i + 1], r[j + 2..]);
    }
  }

  lemma SwapKeepsShape(s: string, i: nat)
    requires HasShape(s) && i + 1 < |s| && i != 3
    ensures HasShape(Swapped(s, i)) <==> i != 1
    ensures i < 4 ==> !Confusable(s[i], s[i + 1]) || i == 1
    ensures i == 1 ==> s[i] != s[i + 1]
  {
    var t := Swapped(s, i);
    assert t[i] == s[i + 1] && t[i + 1] == s[i];
    forall k | 4 <= k < |t| && i != 1 ensures IsAlphanumeric(t[k]) {}
  }
}
