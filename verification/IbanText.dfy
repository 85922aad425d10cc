/** What the validator of account numbers accepts, in terms of the text as typed and of ISO 13616. */
module IbanText {
  import opened DecimalText
  import opened Iban

  const LETTERS := "ABCDEFGHIJKLMNOPQRSTUVWXYZ"
  predicate IsCapital(c: char) {
    c in LETTERS
  }

  const SMALL_LETTERS := "abcdefghijklmnopqrstuvwxyz"

  /** Characters outside ASCII that upper-casing turns into letters from A to Z, by code point. */
  const LIKE_LETTERS: map<int, string> := map[
    0x131 := "I", 0x17F := "S", 0xDF := "SS", 0xFB00 := "FF", 0xFB01 := "FI", 0xFB02 := "FL", 0xFB03 := "FFI", 0xFB04 := "FFL",
    0xFB05 := "ST", 0xFB06 := "ST"]

  // ---------------------------------------------------------------------- the number, written out

  lemma LettersAreUpper(c: char)
    ensures IsUpper(c) <==> IsCapital(c)
    ensures IsUpper(c) ==> LETTERS[c as int - 65] == c
  {
    if IsUpper(c) {
      assert LETTERS[c as int - 65] == c;
    }
  }

  lemma LetterAt(c: char, k: nat)
    requires k < 26 && LETTERS[k] == c
    ensures c as int == 65 + k
  {}

  /** A digit as it is, a letter as the number from 10 for A to 35 for Z. */
  function Spelling(c: char): (text: string)
    requires IsCapital(c) || IsDigit(c)
    ensures AllDigits(text)
  {
    if IsDigit(c) then [c]
    else
      match IndexOf(LETTERS, c)
      case None => "0"
      case Some(k) => DigitsOf(10 + k)
  }

  function Spellings(s: string): (text: string)
    requires forall k :: 0 <= k < |s| ==> IsCapital(s[k]) || IsDigit(s[k])
    ensures AllDigits(text)
  {
    if s == "" then "" else Spellings(s[..|s| - 1]) + Spelling(s[|s| - 1])
  }

  /** An account number of ISO 13616: its check digits, by MOD 97-10 of ISO/IEC 7064, leave a remainder of one. */
  ghost predicate IsAccountNumber(s: string) {
    && 14 <= |s| <= 34
    && IsCapital(s[0]) && IsCapital(s[1]) && IsDigit(s[2]) && IsDigit(s[3])
    && (forall k :: 0 <= k < |s| ==> IsCapital(s[k]) || IsDigit(s[k]))
    && NumberOf(Spellings(s[4..] + s[..4])) % 97 == 1
  }

  lemma AppendOne(text: string, c: char)
    requires AllDigits(text) && IsDigit(c)
    ensures NumberOf(text + [c]) == 10 * NumberOf(text) + DigitValue(c)
  {
    assert (text + [c])[..|text + [c]| - 1] == text;
  }

  lemma TwoDigitText(n: nat)
    requires 10 <= n < 100
    ensures |DigitsOf(n)| == 2 && DigitsOf(n) == [DigitsOf(n)[0]] + [DigitsOf(n)[1]]
    ensures DigitValue(DigitsOf(n)[0]) == n / 10 && DigitValue(DigitsOf(n)[1]) == n % 10
  {}

  lemma SpellingAppends(text: string, c: char)
    requires AllDigits(text) && (IsCapital(c) || IsDigit(c))
    ensures IsAlphanumeric(c) && NumberOf(text + Spelling(c)) == NumberOf(text) * Weight(c) + ValueOf(c)
  {
    LettersAreUpper(c);
    if IsDigit(c) {
      AppendOne(text, c);
    } else {
      var k := IndexOf(LETTERS, c).value;
      LetterAt(c, k);
      TwoDigitText(10 + k);
      var digits := DigitsOf(10 + k);
      AppendOne(text, digits[0]);
      AppendOne(text + [digits[0]], digits[1]);
      assert text + digits == text + [digits[0]] + [digits[1]];
    }
  }

  lemma {:induction false} NumberIsSpelt(s: string)
    requires forall k :: 0 <= k < |s| ==> IsCapital(s[k]) || IsDigit(s[k])
    ensures AllAlphanumeric(s) && Number(s) == NumberOf(Spellings(s))
  {
    forall k | 0 <= k < |s| ensures IsAlphanumeric(s[k]) {
      LettersAreUpper(s[k]);
    }
    if s != "" {
      var front, last := s[..|s| - 1], s[|s| - 1];
      NumberIsSpelt(front);
      SpellingAppends(Spellings(front), last);
    }
  }

  lemma ShapeIs(s: string)
    ensures HasShape(s) <==>
              && 14 <= |s| <= 34
              && IsCapital(s[0]) && IsCapital(s[1]) && IsDigit(s[2]) && IsDigit(s[3])
              && forall k :: 0 <= k < |s| ==> IsCapital(s[k]) || IsDigit(s[k])
  {
    forall k | 0 <= k < |s| ensures IsUpper(s[k]) <==> IsCapital(s[k]) {
      LettersAreUpper(s[k]);
    }
    hide IsCapital, IsUpper, IsDigit;
    if HasShape(s) {
      assert forall k :: 0 <= k < |s| ==> k < 4 || IsAlphanumeric(s[k]);
    }
  }

  lemma ChecksAre(s: string)
    ensures Checks(s) <==> IsAccountNumber(s)
  {
    hide HasShape, IsCapital, IsUpper, IsDigit, Number, Spellings;
    ShapeIs(s);
    if HasShape(s) {
      var rearranged := s[4..] + s[..4];
      assert forall k :: 0 <= k < |s| ==> IsCapital(rearranged[k]) || IsDigit(rearranged[k]);
      NumberIsSpelt(rearranged);
      assert Rearranged(s) == rearranged;
    }
  }

  // ---------------------------------------------------------------------- as typed

  lemma {:induction false} StrippedJoins(a: string, b: string)
    ensures Stripped(a + b) == Stripped(a) + Stripped(b)
  {
    if a == "" {
      assert a + b == b;
    } else {
      assert (a + b)[1..] == a[1..] + b;
      StrippedJoins(a[1..], b);
    }
  }

  lemma {:induction false} UpperJoins(a: string, b: string)
    ensures Upper(a + b) == Upper(a) + Upper(b)
  {
    if a == "" {
      assert a + b == b;
    } else {
      assert (a + b)[1..] == a[1..] + b;
      UpperJoins(a[1..], b);
      hide UpperOf;
    }
  }

  /** What is left of a text once cleaned and upper-cased. */
  function Cleaned(raw: string): string {
    Upper(Stripped(raw))
  }

  lemma CleanedJoins(a: string, m: string, b: string)
    ensures Cleaned(a + m + b) == Cleaned(a) + Cleaned(m) + Cleaned(b)
  {
    StrippedJoins(a + m, b);
    StrippedJoins(a, m);
    UpperJoins(Stripped(a) + Stripped(m), Stripped(b));
    UpperJoins(Stripped(a), Stripped(m));
  }

  lemma OneCleaned(c: char)
    ensures Stripped([c]) == (if IsBlankCode(c as int) || c == '-' then "" else [c])
    ensures Cleaned([c]) == (if IsBlankCode(c as int) || c == '-' then "" else UpperOf(c))
  {
    SpaceIsBlank(c);
    assert [c][1..] == "";
    assert Stripped([c]) == if IsSpace(c) || c == '-' then "" else [c];
    assert Upper([c]) == UpperOf(c) + "";
  }

  lemma OwnUpper(c: char)
    requires IsUpper(c) || IsDigit(c)
    ensures UpperOf(c) == [c] && !IsBlankCode(c as int) && c != '-'
  {}

  lemma PlainLetters(c: char)
    requires IsCapital(c) || IsDigit(c)
    ensures Cleaned([c]) == [c]
  {
    hide *;
    OneCleaned(c);
    LettersAreUpper(c);
    OwnUpper(c);
  }

  /** Text of letters and digits of the pattern is left alone. */
  lemma {:induction false} PlainStays(s: string)
    requires forall k :: 0 <= k < |s| ==> IsCapital(s[k]) || IsDigit(s[k])
    ensures Cleaned(s) == s
  {
    if s != "" {
      assert s == "" + [s[0]] + s[1..];
      CleanedJoins("", [s[0]], s[1..]);
      PlainLetters(s[0]);
      PlainStays(s[1..]);
      assert Cleaned("") == "";
      hide Cleaned;
    }
  }

  /** Typed without separators and in capitals, a text is valid exactly when it is an account number. */
  lemma PlainIsValidIff(s: string)
    requires forall k :: 0 <= k < |s| ==> IsCapital(s[k]) || IsDigit(s[k])
    ensures IsValid(s) <==> IsAccountNumber(s)
  {
    PlainStays(s);
    ChecksAre(s);
    hide Checks, IsAccountNumber;
  }

  lemma SameCleaned(a: string, m: string, n: string, b: string)
    requires Cleaned(m) == Cleaned(n)
    ensures IsValid(a + m + b) <==> IsValid(a + n + b)
  {
    CleanedJoins(a, m, b);
    CleanedJoins(a, n, b);
    assert IsValid(a + m + b) <==> Checks(Cleaned(a + m + b));
    assert IsValid(a + n + b) <==> Checks(Cleaned(a + n + b));
  }

  /** White space and hyphens anywhere make no difference. */
  lemma SeparatorsDoNotMatter(a: string, c: char, b: string)
    requires IsBlankCode(c as int) || c == '-'
    ensures IsValid(a + [c] + b) <==> IsValid(a + b)
  {
    OneCleaned(c);
    assert Cleaned("") == "";
    assert a + "" + b == a + b;
    SameCleaned(a, [c], "", b);
    hide Cleaned, IsValid;
  }

  /** Nor does writing a letter small, or as one of the characters that upper-case to letters. */
  lemma CaseDoesNotMatter(a: string, c: char, b: string)
    ensures forall k :: 0 <= k < 26 && SMALL_LETTERS[k] == c ==> (IsValid(a + [c] + b) <==> IsValid(a + [LETTERS[k]] + b))
    ensures c as int in LIKE_LETTERS ==> (IsValid(a + [c] + b) <==> IsValid(a + LIKE_LETTERS[c as int] + b))
  {
    OneCleaned(c);
    forall k | 0 <= k < 26 && SMALL_LETTERS[k] == c ensures IsValid(a + [c] + b) <==> IsValid(a + [LETTERS[k]] + b) {
      SmallLetter(c, k);
      PlainLetters(LETTERS[k]);
      SameCleaned(a, [c], [LETTERS[k]], b);
    }
    if c as int in LIKE_LETTERS {
      LikeLetters(c);
      PlainStays(LIKE_LETTERS[c as int]);
      SameCleaned(a, [c], LIKE_LETTERS[c as int], b);
    }
    hide Cleaned, IsValid;
  }

  lemma SmallLetter(c: char, k: nat)
    requires k < 26 && SMALL_LETTERS[k] == c
    ensures UpperOf(c) == [LETTERS[k]] && !IsBlankCode(c as int) && c != '-'
  {
    SmallCode(k);
    CapitalCode(k);
    var small, capital := SMALL_LETTERS[k], LETTERS[k];
    SmallUpper(small, capital);
  }

  lemma SmallCode(k: nat)
    requires k < 26
    ensures SMALL_LETTERS[k] as int == 97 + k
  {}

  lemma CapitalCode(k: nat)
    requires k < 26
    ensures LETTERS[k] as int == 65 + k
  {}

  lemma SmallUpper(small: char, capital: char)
    requires 97 <= small as int < 123 && capital as int == small as int - 32
    ensures UpperOf(small) == [capital] && !IsBlankCode(small as int) && small != '-'
  {}

  lemma LikeLetters(c: char)
    requires c as int in LIKE_LETTERS
    ensures UpperOf(c) == LIKE_LETTERS[c as int] && !IsBlankCode(c as int) && c != '-'
    ensures AllCapitals(LIKE_LETTERS[c as int])
  {}

  predicate AllCapitals(s: string) {
    forall k :: 0 <= k < |s| ==> IsCapital(s[k])
  }

  lemma SmallLettersAre(c: char)
    ensures 'a' <= c <= 'z' ==> SMALL_LETTERS[c as int - 97] == c && c in SMALL_LETTERS
  {
    if 'a' <= c <= 'z' {
      assert SMALL_LETTERS[c as int - 97] == c;
    }
  }

  /** Any other character anywhere is refused. */
  lemma StrangersAreRefused(a: string, c: char, b: string)
    requires !IsCapital(c) && !IsDigit(c) && c !in SMALL_LETTERS && c as int !in LIKE_LETTERS && !IsBlankCode(c as int) && c != '-'
    ensures !IsValid(a + [c] + b)
  {
    OneCleaned(c);
    CleanedJoins(a, [c], b);
    SmallLettersAre(c);
    assert UpperOf(c) == [c];
    LettersAreUpper(c);
    var s := Cleaned(a + [c] + b);
    assert s[|Cleaned(a)|] == c;
    hide Cleaned, Number;
  }
}
