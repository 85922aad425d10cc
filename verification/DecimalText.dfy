/** Decimals as text: what an amount in a document parses to, and how one is written. */
module DecimalText {
  import opened Prelude
  import opened Money

  // ---------------------------------------------------------------------- characters

  predicate IsDigit(c: char) {
    '0' <= c <= '9'
  }

  predicate AllDigits(s: string) {
    forall k :: 0 <= k < |s| ==> IsDigit(s[k])
  }

  function DigitValue(c: char): (value: nat)
    requires IsDigit(c)
    ensures value < 10
  {
    c as int - '0' as int
  }

  function DigitChar(value: nat): (c: char)
    requires value < 10
    ensures IsDigit(c) && DigitValue(c) == value
  {
    ('0' as int + value) as char
  }

  /** The white space and line ends that trimming removes. */
  predicate IsSpace(c: char) {
    || '\t' <= c <= '\r'
    || c == ' '
    || c == '\U{00A0}'
    || c == '\U{1680}'
    || '\U{2000}' <= c <= '\U{200A}'
    || c == '\U{2028}'
    || c == '\U{2029}'
    || c == '\U{202F}'
    || c == '\U{205F}'
    || c == '\U{3000}'
    || c == '\U{FEFF}'
  }

  function TrimStart(s: string): string {
    if s != "" && IsSpace(s[0]) then TrimStart(s[1..]) else s
  }

  function TrimEnd(s: string): string {
    if s != "" && IsSpace(s[|s| - 1]) then TrimEnd(s[..|s| - 1]) else s
  }

  function Trim(s: string): string {
    TrimEnd(TrimStart(s))
  }

  /** The code points of ECMAScript's WhiteSpace and LineTerminator. */
  ghost predicate IsBlankCode(code: int) {
    || code in {9, 10, 11, 12, 13, 32, 160, 5760, 8232, 8233, 8239, 8287, 12288, 65279}
    || 8192 <= code <= 8202
  }

  /** Nothing in it to see. */
  ghost predicate IsEmptyText(s: string) {
    forall k :: 0 <= k < |s| ==> IsBlankCode(s[k] as int)
  }

  lemma SpaceIsBlank(c: char)
    ensures IsSpace(c) <==> IsBlankCode(c as int)
  {}

  lemma {:induction false} TrimStartIsInside(s: string) returns (before: string)
    ensures s == before + TrimStart(s) && IsEmptyText(before)
    ensures TrimStart(s) != "" ==> !IsBlankCode(TrimStart(s)[0] as int)
  {
    before := "";
    if s != "" {
      SpaceIsBlank(s[0]);
      if IsSpace(s[0]) {
        var rest := TrimStartIsInside(s[1..]);
        before := [s[0]] + rest;
      }
    }
  }

  lemma {:induction false} TrimEndIsInside(s: string) returns (after: string)
    ensures s == TrimEnd(s) + after && IsEmptyText(after)
    ensures TrimEnd(s) != "" ==> !IsBlankCode(TrimEnd(s)[|TrimEnd(s)| - 1] as int) && TrimEnd(s)[0] == s[0]
  {
    after := "";
    if s != "" {
      var last := s[|s| - 1];
      SpaceIsBlank(last);
      if IsSpace(last) {
        var rest := TrimEndIsInside(s[..|s| - 1]);
        after := rest + [last];
      }
    }
  }

  /** Trimming takes the white space off both ends, all of it, and nothing else. */
  lemma TrimIsInside(s: string) returns (before: string, after: string)
    ensures s == before + Trim(s) + after && IsEmptyText(before) && IsEmptyText(after)
    ensures Trim(s) != "" ==> !IsBlankCode(Trim(s)[0] as int) && !IsBlankCode(Trim(s)[|Trim(s)| - 1] as int)
  {
    before := TrimStartIsInside(s);
    after := TrimEndIsInside(TrimStart(s));
  }

  lemma TrimIsEmptyIff(s: string)
    ensures Trim(s) == "" <==> IsEmptyText(s)
  {
    hide Trim;
    var before, after := TrimIsInside(s);
    if Trim(s) != "" {
      assert s[|before|] == Trim(s)[0];
    } else {
      forall k | 0 <= k < |s| ensures IsBlankCode(s[k] as int) {
        assert s[k] == if k < |before| then before[k] else after[k - |before|];
      }
    }
  }

  // ---------------------------------------------------------------------- digits and numbers

  function NumberOf(digits: string): nat
    requires AllDigits(digits)
  {
    if digits == "" then 0
    else 10 * NumberOf(digits[..|digits| - 1]) + DigitValue(digits[|digits| - 1])
  }

  function DigitsOf(n: nat): (digits: string)
    ensures digits != "" && AllDigits(digits)
  {
    if n < 10 then [DigitChar(n)] else DigitsOf(n / 10) + [DigitChar(n % 10)]
  }

  lemma {:induction false} DigitsReadBack(n: nat)
    ensures NumberOf(DigitsOf(n)) == n
  {
    if n >= 10 {
      DigitsReadBack(n / 10);
      assert DigitsOf(n)[..|DigitsOf(n)| - 1] == DigitsOf(n / 10);
    }
  }

  function Zeros(count: nat): (zeros: string)
    ensures |zeros| == count && AllDigits(zeros)
    ensures forall k :: 0 <= k < count ==> zeros[k] == '0'
  {
    seq(count, _ => '0')
  }

  function PadStart(s: string, width: nat): string {
    if |s| >= width then s else Zeros(width - |s|) + s
  }

  lemma {:induction false} ZerosInFront(count: nat, digits: string)
    requires AllDigits(digits)
    ensures NumberOf(Zeros(count) + digits) == NumberOf(digits)
  {
    var padded := Zeros(count) + digits;
    if digits != "" {
      ZerosInFront(count, digits[..|digits| - 1]);
      assert padded[..|padded| - 1] == Zeros(count) + digits[..|digits| - 1];
    } else if count > 0 {
      ZerosInFront(count - 1, digits);
      assert padded[..|padded| - 1] == Zeros(count - 1) + digits;
    }
  }

  // ---------------------------------------------------------------------- parsing

  function IndexOf(s: string, c: char): (index: Option<nat>)
    ensures index.Some? ==> index.value < |s| && s[index.value] == c
    ensures forall k :: 0 <= k < (if index.Some? then index.value else |s|) ==> s[k] != c
  {
    if s == "" then None
    else if s[0] == c then Some(0)
    else
      match IndexOf(s[1..], c)
      case None => None
      case Some(k) => Some(k + 1)
  }

  predicate IsSigned(s: string) {
    s != "" && (s[0] == '+' || s[0] == '-')
  }

  function Unsigned(s: string): string {
    if IsSigned(s) then s[1..] else s
  }

  /** Digits with at most one dot and at least one digit. */
  predicate IsUnsignedDecimal(u: string) {
    match IndexOf(u, '.')
    case None => u != "" && AllDigits(u)
    case Some(dot) => AllDigits(u[..dot]) && AllDigits(u[dot + 1..]) && |u| > 1
  }

  predicate IsDecimal(s: string) {
    IsUnsignedDecimal(Unsigned(s))
  }

  function Signed(negative: bool, magnitude: nat): int {
    if negative then -(magnitude as int) else magnitude
  }

  function ParseDecimal(raw: Option<string>): Option<Decimal> {
    if raw.None? then None
    else
      var trimmed := Trim(raw.value);
      if !IsDecimal(trimmed) then None
      else
        var negative := trimmed != "" && trimmed[0] == '-';
        var unsigned := Unsigned(trimmed);
        match IndexOf(unsigned, '.')
        case None =>
          Some(Decimal(Signed(negative, NumberOf(unsigned)), 0))
        case Some(dot) =>
          var fraction := unsigned[dot + 1..];
          Some(Decimal(Signed(negative, NumberOf(unsigned[..dot] + fraction)), |fraction|))
  }

  /** The pattern an amount has to match: an optional sign, digits, and a dot that needs a digit on one side. */
  predicate IsWritten(s: string, sign: string, whole: string, dotted: bool, fraction: string) {
    && (sign == "" || sign == "+" || sign == "-")
    && AllDigits(whole) && AllDigits(fraction)
    && (if dotted then whole != "" || fraction != "" else whole != "" && fraction == "")
    && s == sign + (whole + (if dotted then "." + fraction else ""))
  }

  /** Parsing accepts exactly the texts of that pattern, and reads all the digits at the scale of the fraction. */
  lemma ParsesExactly(raw: string, d: Decimal)
    ensures ParseDecimal(Some(raw)) == Some(d) <==>
              exists sign, whole, dotted, fraction :: IsWritten(Trim(raw), sign, whole, dotted, fraction) &&
                d == Decimal(Signed(sign == "-", NumberOf(whole + fraction)), |fraction|)
  {
    var s := Trim(raw);
    if ParseDecimal(Some(raw)) == Some(d) {
      var _, _, _, _ := ParsedIsWritten(raw, d);
    }
    forall sign, whole, dotted, fraction | IsWritten(s, sign, whole, dotted, fraction)
      ensures ParseDecimal(Some(raw)) == Some(Decimal(Signed(sign == "-", NumberOf(whole + fraction)), |fraction|))
    {
      WrittenParses(raw, sign, whole, dotted, fraction);
    }
  }

  lemma SignSplits(s: string)
    ensures var sign := if IsSigned(s) then s[..1] else "";
            && s == sign + Unsigned(s)
            && (sign == "" || sign == "+" || sign == "-")
            && (sign == "-" <==> s != "" && s[0] == '-')
  {
    if IsSigned(s) {
      assert s[..1] == [s[0]];
    }
  }

  lemma ParsedIsWritten(raw: string, d: Decimal) returns (sign: string, whole: string, dotted: bool, fraction: string)
    requires ParseDecimal(Some(raw)) == Some(d)
    ensures IsWritten(Trim(raw), sign, whole, dotted, fraction)
    ensures d == Decimal(Signed(sign == "-", NumberOf(whole + fraction)), |fraction|)
  {
    var s := Trim(raw);
    SignSplits(s);
    hide Trim, NumberOf, Unsigned, Signed;
    var u := Unsigned(s);
    sign := if IsSigned(s) then s[..1] else "";
    match IndexOf(u, '.')
    case None =>
      whole, dotted, fraction := u, false, "";
      assert u + "" == u;
    case Some(dot) =>
      whole, dotted, fraction := u[..dot], true, u[dot + 1..];
      assert u == whole + ("." + fraction);
  }

  lemma WrittenParses(raw: string, sign: string, whole: string, dotted: bool, fraction: string)
    requires IsWritten(Trim(raw), sign, whole, dotted, fraction)
    ensures ParseDecimal(Some(raw)) == Some(Decimal(Signed(sign == "-", NumberOf(whole + fraction)), |fraction|))
  {
    var s := Trim(raw);
    hide Trim, NumberOf;
    var u := whole + (if dotted then "." + fraction else "");
    UnsignedWritten(s, sign, whole, dotted, fraction);
    hide Unsigned, IndexOf;
    if dotted {
      assert u == whole + "." + fraction;
      DotAt(whole, fraction);
    } else {
      assert u == whole && whole + fraction == whole;
      NoDotInDigits(whole);
    }
  }

  lemma UnsignedWritten(s: string, sign: string, whole: string, dotted: bool, fraction: string)
    requires IsWritten(s, sign, whole, dotted, fraction)
    ensures Unsigned(s) == whole + (if dotted then "." + fraction else "")
    ensures s != "" && (s[0] == '-' <==> sign == "-")
  {
    var u := whole + (if dotted then "." + fraction else "");
    assert u[0] == '.' || IsDigit(u[0]);
    if sign == "" {
      assert s == u;
    } else {
      assert s[1..] == u && s[0] == sign[0];
    }
  }

  lemma DotAt(whole: string, fraction: string)
    requires AllDigits(whole)
    ensures var u := whole + "." + fraction;
            IndexOf(u, '.') == Some(|whole|) && u[..|whole|] == whole && u[|whole| + 1..] == fraction
  {
    var u := whole + "." + fraction;
    assert u[|whole|] == '.';
    assert forall k :: 0 <= k < |whole| ==> u[k] == whole[k];
  }

  lemma NoDotInDigits(digits: string)
    requires AllDigits(digits)
    ensures IndexOf(digits, '.') == None
  {}

  // ---------------------------------------------------------------------- formatting

  function Format(d: Decimal): string {
    var negative := d.value < 0;
    var digits := PadStart(DigitsOf(Abs(d.value)), d.scale + 1);
    var sign := if negative then "-" else "";
    if d.scale == 0 then sign + digits
    else
      var cut := |digits| - d.scale;
      sign + digits[..cut] + "." + digits[cut..]
  }

  /** A sign, an integer part and a fraction part, put together. */
  function Spelled(negative: bool, whole: string, fraction: string): string {
    (if negative then "-" else "") + whole + (if fraction == "" then "" else "." + fraction)
  }

  /** No superfluous sign, zero or dot. */
  predicate IsPlain(negative: bool, whole: string, fraction: string) {
    && AllDigits(whole) && AllDigits(fraction)
    && whole != ""
    && (whole[0] == '0' ==> |whole| == 1)
    && (negative ==> NumberOf(whole + fraction) != 0)
  }

  ghost predicate IsCanonical(s: string) {
    exists negative, whole, fraction :: IsPlain(negative, whole, fraction) && s == Spelled(negative, whole, fraction)
  }

  function DecimalOf(negative: bool, whole: string, fraction: string): Decimal
    requires AllDigits(whole + fraction)
  {
    Decimal(Signed(negative, NumberOf(whole + fraction)), |fraction|)
  }

  lemma TrimLeavesPlain(negative: bool, whole: string, fraction: string)
    requires AllDigits(whole) && AllDigits(fraction) && whole != ""
    ensures Trim(Spelled(negative, whole, fraction)) == Spelled(negative, whole, fraction)
  {
    var s := Spelled(negative, whole, fraction);
    assert s != "" && !IsSpace(s[0]) && !IsSpace(s[|s| - 1]);
  }

  /** Spelled-out parts parse to the decimal they spell. */
  lemma SpelledParses(negative: bool, whole: string, fraction: string)
    requires AllDigits(whole) && AllDigits(fraction) && whole != ""
    ensures ParseDecimal(Some(Spelled(negative, whole, fraction))) == Some(DecimalOf(negative, whole, fraction))
  {
    var s := Spelled(negative, whole, fraction);
    var sign := if negative then "-" else "";
    TrimLeavesPlain(negative, whole, fraction);
    assert s == sign + (whole + (if fraction == "" then "" else "." + fraction));
    WrittenParses(s, sign, whole, fraction != "", fraction);
  }

  lemma PaddedReadsBack(n: nat, width: nat)
    requires width > 0
    ensures var digits := PadStart(DigitsOf(n), width);
            && |digits| >= width && AllDigits(digits) && NumberOf(digits) == n
            && (digits[0] == '0' ==> |digits| == width)
  {
    var bare := DigitsOf(n);
    DigitsReadBack(n);
    DigitsHaveNoLeadingZero(n);
    if |bare| < width {
      ZerosInFront(width - |bare|, bare);
    }
  }

  /** `Format` spells out its decimal, plainly. */
  lemma FormatSpells(d: Decimal) returns (whole: string, fraction: string)
    ensures IsPlain(d.value < 0, whole, fraction) && Format(d) == Spelled(d.value < 0, whole, fraction)
    ensures DecimalOf(d.value < 0, whole, fraction) == d
  {
    var digits := PadStart(DigitsOf(Abs(d.value)), d.scale + 1);
    var cut := |digits| - d.scale;
    PaddedReadsBack(Abs(d.value), d.scale + 1);
    whole, fraction := digits[..cut], digits[cut..];
    FormatJoins(d, digits, whole, fraction);
    hide PadStart, DigitsOf, NumberOf, Spelled, Format;
    assert whole[0] == digits[0];
  }

  lemma FormatJoins(d: Decimal, digits: string, whole: string, fraction: string)
    requires digits == PadStart(DigitsOf(Abs(d.value)), d.scale + 1) && |digits| > d.scale
    requires whole == digits[..|digits| - d.scale] && fraction == digits[|digits| - d.scale..]
    ensures whole + fraction == digits && Format(d) == Spelled(d.value < 0, whole, fraction)
  {
    hide PadStart, DigitsOf;
    var sign := if d.value < 0 then "-" else "";
    if d.scale == 0 {
      assert whole == digits && fraction == "";
    } else {
      assert fraction != "" && sign + whole + "." + fraction == sign + whole + ("." + fraction);
    }
  }

  lemma {:induction false} DigitsHaveNoLeadingZero(n: nat)
    ensures DigitsOf(n)[0] == '0' ==> n == 0 && |DigitsOf(n)| == 1
  {
    if n >= 10 {
      DigitsHaveNoLeadingZero(n / 10);
    }
  }

  /** Writing a decimal and parsing it gives it back, value and scale. */
  lemma FormatParses(d: Decimal)
    ensures ParseDecimal(Some(Format(d))) == Some(d)
  {
    var whole, fraction := FormatSpells(d);
    SpelledParses(d.value < 0, whole, fraction);
  }

  lemma {:induction false} LeadingDigitCounts(digits: string)
    requires AllDigits(digits) && digits != "" && digits[0] != '0'
    ensures NumberOf(digits) > 0 && DigitsOf(NumberOf(digits)) == digits
  {
    var front, last := digits[..|digits| - 1], digits[|digits| - 1];
    assert digits == front + [last];
    DigitIsItsValue(last);
    if front == "" {
      assert NumberOf(front) == 0 && digits == [last];
    } else {
      LeadingDigitCounts(front);
      assert NumberOf(digits) / 10 == NumberOf(front) && NumberOf(digits) % 10 == DigitValue(last);
    }
  }

  lemma DigitIsItsValue(c: char)
    requires IsDigit(c)
    ensures DigitChar(DigitValue(c)) == c && (DigitValue(c) == 0 <==> c == '0')
  {}

  lemma PadsOneMore(bare: string, rest: string)
    requires |bare| <= |rest| && PadStart(bare, |rest|) == rest
    ensures PadStart(bare, |rest| + 1) == "0" + rest
  {
    assert Zeros(|rest| + 1 - |bare|) == "0" + Zeros(|rest| - |bare|);
    assert rest == Zeros(|rest| - |bare|) + bare;
    assert "0" + (Zeros(|rest| - |bare|) + bare) == ("0" + Zeros(|rest| - |bare|)) + bare;
  }

  /** The digits of a number written with zeros in front are its own digits, padded. */
  lemma {:induction false} PaddedDigits(digits: string)
    requires AllDigits(digits) && digits != ""
    ensures |DigitsOf(NumberOf(digits))| <= |digits| && PadStart(DigitsOf(NumberOf(digits)), |digits|) == digits
  {
    if digits[0] != '0' {
      LeadingDigitCounts(digits);
    } else if |digits| == 1 {
      assert digits == "0" && NumberOf(digits[..0]) == 0;
    } else {
      var rest := digits[1..];
      PaddedDigits(rest);
      assert digits == "0" + rest && Zeros(1) == "0";
      ZerosInFront(1, rest);
      hide NumberOf, DigitsOf, PadStart;
      PadsOneMore(DigitsOf(NumberOf(rest)), rest);
    }
  }

  /** What is plainly spelled is exactly how its decimal is written. */
  lemma PlainIsFormat(negative: bool, whole: string, fraction: string)
    requires IsPlain(negative, whole, fraction)
    ensures Format(DecimalOf(negative, whole, fraction)) == Spelled(negative, whole, fraction)
  {
    var d := DecimalOf(negative, whole, fraction);
    var digits := whole + fraction;
    PaddedDigits(digits);
    assert Abs(d.value) == NumberOf(digits) && (d.value < 0 <==> negative);
    if |whole| > 1 {
      LeadingDigitCounts(digits);
      assert PadStart(digits, d.scale + 1) == digits;
    }
    hide NumberOf, DigitsOf, PadStart, Format, Spelled, DecimalOf;
    assert digits[..|whole|] == whole && digits[|whole|..] == fraction;
    FormatJoins(d, digits, whole, fraction);
  }

  /** The texts `Format` produces are exactly the canonical ones, so every decimal has one canonical text. */
  lemma CanonicalIff(s: string)
    ensures IsCanonical(s) <==> exists d :: Format(d) == s
    ensures IsCanonical(s) ==> ParseDecimal(Some(s)).Some? && Format(ParseDecimal(Some(s)).value) == s
  {
    if negative, whole, fraction :| IsPlain(negative, whole, fraction) && s == Spelled(negative, whole, fraction) {
      PlainIsFormat(negative, whole, fraction);
      SpelledParses(negative, whole, fraction);
      assert Format(DecimalOf(negative, whole, fraction)) == s;
    }
    if d :| Format(d) == s {
      var whole, fraction := FormatSpells(d);
    }
  }

  /** Whatever spelling was parsed, its canonical form parses to the same decimal. */
  lemma CanonicalFormParsesTheSame(raw: string)
    requires ParseDecimal(Some(raw)).Some?
    ensures IsCanonical(Format(ParseDecimal(Some(raw)).value))
    ensures ParseDecimal(Some(Format(ParseDecimal(Some(raw)).value))) == ParseDecimal(Some(raw))
  {
    var d := ParseDecimal(Some(raw)).value;
    FormatParses(d);
    CanonicalIff(Format(d));
  }
}
