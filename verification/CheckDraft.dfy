/** The pre-flight check of a draft: what is refused, and what an accepted draft is sure to become. */
module CheckDraft {
  import opened Prelude
  import opened Money
  import opened DecimalText
  import opened Draft
  import opened Compute
  import Invoicing
  import opened FrenchRates

  datatype Severity = Error | Warning

  datatype Problem =
    | NoLines | BlankName(line: nat) | DescriptionDropped(line: nat) | BlankUnit(line: nat) | UnreadableQuantity(line: nat) | ZeroQuantity(line: nat)
    | UnreadablePrice(line: nat) | UnknownCategory(line: nat) | UnreadableRate(line: nat) | RateNotZero(line: nat)
    | ReasonMissing(line: nat) | ReasonForbidden(line: nat) | RateNotPositive(line: nat) | UnusualRate(line: nat)
    | NoDeliveryCountry | SeveralReasons(category: VatCategory, kept: string)
    | NoDueDate | PrepaidTooHigh | UnreadableAmount(error: AmountError)
    | Elsewhere(field: string)

  datatype Issue = Issue(problem: Problem, severity: Severity)
  datatype CheckResult = CheckResult(ok: bool, issues: seq<Issue>)

  predicate HasError(issues: seq<Issue>) {
    exists k :: 0 <= k < |issues| && issues[k].severity == Error
  }

  predicate Blank(text: Option<string>) {
    text.None? || Trim(text.value) == ""
  }

  function When(condition: bool, problem: Problem, severity: Severity): seq<Issue> {
    if condition then [Issue(problem, severity)] else []
  }

  // ---------------------------------------------------------------------- errors, piece by piece

  lemma ErrorsSplit(a: seq<Issue>, b: seq<Issue>)
    ensures HasError(a + b) <==> HasError(a) || HasError(b)
  {
    if k :| 0 <= k < |a| && a[k].severity == Error {
      assert (a + b)[k].severity == Error;
    }
    if k :| 0 <= k < |b| && b[k].severity == Error {
      assert (a + b)[|a| + k].severity == Error;
    }
  }

  lemma ErrorWhen(condition: bool, problem: Problem, severity: Severity)
    ensures HasError(When(condition, problem, severity)) <==> condition && severity == Error
  {
    if condition {
      assert When(condition, problem, severity)[0].severity == severity;
    }
  }

  lemma ZeroIsZero()
    ensures Value(ZERO) == 0.0
  {}

  // ---------------------------------------------------------------------- what each line is reproached with

  function StandardRateIssues(category: VatCategory, rate: Decimal, k: nat): seq<Issue> {
    if category != S then []
    else if Compare(rate, ZERO) <= 0 then [Issue(RateNotPositive(k), Error)]
    else When(!IsFrench(rate), UnusualRate(k), Warning)
  }

  function VatIssues(category: VatCategory, rate: Decimal, reason: Option<string>, k: nat): seq<Issue> {
    When(ZeroRated(category) && !IsZero(rate), RateNotZero(k), Error) +
    When(ReasonRequired(category) && Blank(reason), ReasonMissing(k), Error) +
    When(category == Z && !Blank(reason), ReasonForbidden(k), Warning) +
    StandardRateIssues(category, rate, k)
  }

  /** A rate and reason nobody objects to under their category. */
  ghost predicate RateFits(category: VatCategory, rate: Decimal, reason: Option<string>) {
    && !category.Unlisted?
    && (ZeroRated(category) ==> rate.value == 0)
    && (ReasonRequired(category) ==> !Blank(reason))
    && (category == S ==> Value(rate) > 0.0)
  }

  lemma StandardRateMeans(category: VatCategory, rate: Decimal, k: nat)
    ensures HasError(StandardRateIssues(category, rate, k)) <==> category == S && Value(rate) <= 0.0
    ensures StandardRateIssues(category, rate, k) ==
              if category != S then []
              else if Value(rate) <= 0.0 then [Issue(RateNotPositive(k), Error)]
              else When(!HasFrenchValue(Value(rate)), UnusualRate(k), Warning)
  {
    CompareIsExact(rate, ZERO);
    ZeroIsZero();
    IsFrenchIff(rate);
    ErrorWhen(!IsFrench(rate), UnusualRate(k), Warning);
    hide IsFrench, Value, Compare, HasFrenchValue;
    if category == S && Value(rate) <= 0.0 {
      assert StandardRateIssues(category, rate, k)[0].severity == Error;
    }
  }

  lemma VatErrors(category: VatCategory, rate: Decimal, reason: Option<string>, k: nat)
    requires !category.Unlisted?
    ensures HasError(VatIssues(category, rate, reason, k)) <==> !RateFits(category, rate, reason)
  {
    var a := When(ZeroRated(category) && !IsZero(rate), RateNotZero(k), Error);
    var b := When(ReasonRequired(category) && Blank(reason), ReasonMissing(k), Error);
    var c := When(category == Z && !Blank(reason), ReasonForbidden(k), Warning);
    var d := StandardRateIssues(category, rate, k);
    ErrorsSplit(a + b + c, d);
    ErrorsSplit(a + b, c);
    ErrorsSplit(a, b);
    ErrorWhen(ZeroRated(category) && !IsZero(rate), RateNotZero(k), Error);
    ErrorWhen(ReasonRequired(category) && Blank(reason), ReasonMissing(k), Error);
    ErrorWhen(category == Z && !Blank(reason), ReasonForbidden(k), Warning);
    StandardRateMeans(category, rate, k);
    hide When, HasError, Value, StandardRateIssues, Blank;
  }

  /** Which warnings a line's category, rate and reason draw, the rate by its value. */
  lemma VatWarnings(category: VatCategory, rate: Decimal, reason: Option<string>, k: nat)
    ensures Issue(ReasonForbidden(k), Warning) in VatIssues(category, rate, reason, k) <==> category == Z && !Blank(reason)
    ensures Issue(UnusualRate(k), Warning) in VatIssues(category, rate, reason, k) <==>
              category == S && Value(rate) > 0.0 && !HasFrenchValue(Value(rate))
  {
    StandardRateMeans(category, rate, k);
    hide Value, StandardRateIssues, Blank, HasError, HasFrenchValue;
  }

  function QuantityIssues(line: DraftLine, k: nat): seq<Issue> {
    match ParseDecimal(Some(line.quantity))
    case None => [Issue(UnreadableQuantity(k), Error)]
    case Some(quantity) => When(IsZero(quantity), ZeroQuantity(k), Warning)
  }

  function RateIssues(line: DraftLine, k: nat): seq<Issue> {
    if line.vatCategory.Unlisted? then [Issue(UnknownCategory(k), Error)]
    else
      match ParseDecimal(Some(line.vatRatePercent))
      case None => [Issue(UnreadableRate(k), Error)]
      case Some(rate) => VatIssues(line.vatCategory, rate, line.exemptionReason, k)
  }

  function LineIssues(line: DraftLine, k: nat): seq<Issue> {
    When(Blank(Some(line.name)), BlankName(k), Error) +
    When(Blank(Some(line.unitCode)), BlankUnit(k), Error) +
    When(!Blank(line.description), DescriptionDropped(k), Warning) +
    QuantityIssues(line, k) +
    When(ParseDecimal(Some(line.unitPrice)).None?, UnreadablePrice(k), Error) +
    RateIssues(line, k)
  }

  function AllLineIssues(lines: seq<DraftLine>): seq<Issue> {
    if lines == [] then [] else AllLineIssues(lines[..|lines| - 1]) + LineIssues(lines[|lines| - 1], |lines| - 1)
  }

  /** Reasons are compared within a category and a rate as it was typed. */
  datatype ReasonKey = ReasonKey(category: VatCategory, rate: string)

  predicate GivesReason(line: DraftLine) {
    ReasonRequired(line.vatCategory) && ParseDecimal(Some(line.vatRatePercent)).Some? && !Blank(line.exemptionReason)
  }

  function ReasonKeyOf(line: DraftLine): ReasonKey {
    ReasonKey(line.vatCategory, line.vatRatePercent)
  }

  /** In order of first appearance. */
  function ReasonKeys(lines: seq<DraftLine>): seq<ReasonKey> {
    if lines == [] then []
    else
      var before, last := ReasonKeys(lines[..|lines| - 1]), lines[|lines| - 1];
      if GivesReason(last) && ReasonKeyOf(last) !in before then before + [ReasonKeyOf(last)] else before
  }

  /** The different reasons given under `key`, in order of first appearance. */
  function Reasons(lines: seq<DraftLine>, key: ReasonKey): seq<string> {
    if lines == [] then []
    else
      var before, last := Reasons(lines[..|lines| - 1], key), lines[|lines| - 1];
      if GivesReason(last) && ReasonKeyOf(last) == key && Trim(last.exemptionReason.value) !in before
      then before + [Trim(last.exemptionReason.value)] else before
  }

  function SeveralReasonsIssues(key: ReasonKey, reasons: seq<string>): seq<Issue> {
    if |reasons| > 1 then [Issue(SeveralReasons(key.category, reasons[0]), Warning)] else []
  }

  function ReasonIssues(lines: seq<DraftLine>, keys: seq<ReasonKey>): seq<Issue> {
    if keys == [] then []
    else
      var last := keys[|keys| - 1];
      ReasonIssues(lines, keys[..|keys| - 1]) + SeveralReasonsIssues(last, Reasons(lines, last))
  }

  predicate HasIntraCommunity(lines: seq<DraftLine>) {
    exists k :: 0 <= k < |lines| && lines[k].vatCategory == K
  }

  function LinesIssues(draft: InvoiceDraft): seq<Issue> {
    if draft.lines == [] then [Issue(NoLines, Error)]
    else
      AllLineIssues(draft.lines) +
      When(HasIntraCommunity(draft.lines) && Blank(draft.deliveryCountryCode), NoDeliveryCountry, Error) +
      ReasonIssues(draft.lines, ReasonKeys(draft.lines))
  }

  // ---------------------------------------------------------------------- the loops

  lemma Pushed(issues: seq<Issue>, done: seq<Issue>, more: seq<Issue>)
    ensures issues + done + more == issues + (done + more)
  {}

  /** Pushes what is wrong with one line; an unknown category or unreadable rate ends the look at that line. */
  method CheckLine(line: DraftLine, k: nat, issues: seq<Issue>) returns (after: seq<Issue>)
    ensures after == issues + LineIssues(line, k)
  {
    ghost var name, unit := When(Blank(Some(line.name)), BlankName(k), Error), When(Blank(Some(line.unitCode)), BlankUnit(k), Error);
    ghost var described := When(!Blank(line.description), DescriptionDropped(k), Warning);
    ghost var amounts := QuantityIssues(line, k);
    ghost var price := When(ParseDecimal(Some(line.unitPrice)).None?, UnreadablePrice(k), Error);
    Pushed(issues, name, unit);
    Pushed(issues, name + unit, described);
    Pushed(issues, name + unit + described, amounts);
    Pushed(issues, name + unit + described + amounts, price);
    Pushed(issues, name + unit + described + amounts + price, RateIssues(line, k));
    hide VatIssues, ParseDecimal, Trim;
    after := issues;
    if Trim(line.name) == "" {
      after := after + [Issue(BlankName(k), Error)];
    }
    assert after == issues + name;
    if Trim(line.unitCode) == "" {
      after := after + [Issue(BlankUnit(k), Error)];
    }
    assert after == issues + (name + unit);
    if !Blank(line.description) {
      after := after + [Issue(DescriptionDropped(k), Warning)];
    }
    assert after == issues + (name + unit + described);
    after := CheckQuantity(line, k, after);
    if ParseDecimal(Some(line.unitPrice)).None? {
      after := after + [Issue(UnreadablePrice(k), Error)];
    }
    assert after == issues + (name + unit + described + amounts + price);
    if line.vatCategory.Unlisted? {
      return after + [Issue(UnknownCategory(k), Error)];
    }
    var rate := ParseDecimal(Some(line.vatRatePercent));
    if rate.None? {
      return after + [Issue(UnreadableRate(k), Error)];
    }
    after := CheckVatCoherence(line.vatCategory, rate.value, line.exemptionReason, k, after);
  }

  method CheckQuantity(line: DraftLine, k: nat, issues: seq<Issue>) returns (after: seq<Issue>)
    ensures after == issues + QuantityIssues(line, k)
    ensures Issue(ZeroQuantity(k), Warning) in after[|issues|..] <==>
              ParseDecimal(Some(line.quantity)).Some? && Value(ParseDecimal(Some(line.quantity)).value) == 0.0
  {
    hide ParseDecimal;
    var quantity := ParseDecimal(Some(line.quantity));
    if quantity.None? {
      return issues + [Issue(UnreadableQuantity(k), Error)];
    }
    after := issues;
    CompareIsExact(quantity.value, ZERO);
    ZeroIsZero();
    if IsZero(quantity.value) {
      after := after + [Issue(ZeroQuantity(k), Warning)];
    }
  }

  method CheckVatCoherence(category: VatCategory, rate: Decimal, reason: Option<string>, k: nat, issues: seq<Issue>) returns (after: seq<Issue>)
    ensures after == issues + VatIssues(category, rate, reason, k)
    ensures !category.Unlisted? ==> (HasError(after) <==> HasError(issues) || !RateFits(category, rate, reason))
    ensures Issue(ReasonForbidden(k), Warning) in after[|issues|..] <==> category == Z && !Blank(reason)
    ensures Issue(UnusualRate(k), Warning) in after[|issues|..] <==>
              category == S && Value(rate) > 0.0 && !HasFrenchValue(Value(rate))
  {
    ErrorsSplit(issues, VatIssues(category, rate, reason, k));
    if !category.Unlisted? {
      VatErrors(category, rate, reason, k);
    }
    VatWarnings(category, rate, reason, k);
    hide HasError, RateFits, Value, HasFrenchValue, IsFrench, Compare, Blank;
    after := issues;
    if ZeroRated(category) && !IsZero(rate) {
      after := after + [Issue(RateNotZero(k), Error)];
    }
    if ReasonRequired(category) && Blank(reason) {
      after := after + [Issue(ReasonMissing(k), Error)];
    }
    if category == Z && !Blank(reason) {
      after := after + [Issue(ReasonForbidden(k), Warning)];
    }
    if category == S {
      if Compare(rate, ZERO) <= 0 {
        after := after + [Issue(RateNotPositive(k), Error)];
      } else if !IsFrench(rate) {
        after := after + [Issue(UnusualRate(k), Warning)];
      }
    }
    assert after == issues + VatIssues(category, rate, reason, k);
    assert after[|issues|..] == VatIssues(category, rate, reason, k);
  }

  lemma NoLineNoIssue(lines: seq<DraftLine>)
    ensures AllLineIssues(lines[..0]) == []
  {}

  lemma AllLineIssuesAppends(lines: seq<DraftLine>, k: nat)
    requires k < |lines|
    ensures AllLineIssues(lines[..k + 1]) == AllLineIssues(lines[..k]) + LineIssues(lines[k], k)
  {
    assert lines[..k + 1][..k] == lines[..k];
  }

  /** The reasons collected from `lines`: the keys in order, and the reasons of each. */
  ghost predicate Collected(lines: seq<DraftLine>, order: seq<ReasonKey>, reasons: map<ReasonKey, seq<string>>) {
    && order == ReasonKeys(lines)
    && (forall key :: key in reasons <==> key in order)
    && (forall key :: Reasons(lines, key) == if key in reasons then reasons[key] else [])
  }

  method CollectReason(ghost lines: seq<DraftLine>, line: DraftLine, order: seq<ReasonKey>, reasons: map<ReasonKey, seq<string>>)
    returns (order': seq<ReasonKey>, reasons': map<ReasonKey, seq<string>>)
    requires Collected(lines, order, reasons)
    ensures Collected(lines + [line], order', reasons')
  {
    hide ParseDecimal, Trim, ReasonRequired;
    order', reasons' := order, reasons;
    assert (lines + [line])[..|lines|] == lines;
    if GivesReason(line) {
      var key, reason := ReasonKeyOf(line), Trim(line.exemptionReason.value);
      var known := if key in reasons then reasons[key] else [];
      if key !in reasons {
        order' := order + [key];
      }
      reasons' := reasons[key := if reason in known then known else known + [reason]];
    }
  }

  /** Every line in turn, collecting the reasons given on the way. */
  method CheckEachLine(lines: seq<DraftLine>, issues: seq<Issue>)
    returns (after: seq<Issue>, order: seq<ReasonKey>, reasons: map<ReasonKey, seq<string>>)
    ensures after == issues + AllLineIssues(lines) && Collected(lines, order, reasons)
  {
    hide AllLineIssues, LineIssues, Collected;
    after, order, reasons := issues, [], map[];
    NoLineNoIssue(lines);
    NothingCollected(lines);
    for k := 0 to |lines|
      invariant after == issues + AllLineIssues(lines[..k])
      invariant Collected(lines[..k], order, reasons)
    {
      AllLineIssuesAppends(lines, k);
      Pushed(issues, AllLineIssues(lines[..k]), LineIssues(lines[k], k));
      after := CheckLine(lines[k], k, after);
      order, reasons := CollectReason(lines[..k], lines[k], order, reasons);
      assert lines[..k + 1] == lines[..k] + [lines[k]];
    }
    assert lines[..|lines|] == lines;
  }

  method CheckLines(draft: InvoiceDraft, issues: seq<Issue>) returns (after: seq<Issue>)
    ensures after == issues + LinesIssues(draft)
  {
    if draft.lines == [] {
      return issues + [Issue(NoLines, Error)];
    }
    hide AllLineIssues, ReasonIssues, ReasonKeys, Collected, HasIntraCommunity, Blank;
    var order, reasons;
    after, order, reasons := CheckEachLine(draft.lines, issues);
    ghost var country := When(HasIntraCommunity(draft.lines) && Blank(draft.deliveryCountryCode), NoDeliveryCountry, Error);
    Pushed(issues, AllLineIssues(draft.lines), country);
    if HasIntraCommunity(draft.lines) && Blank(draft.deliveryCountryCode) {
      after := after + [Issue(NoDeliveryCountry, Error)];
    }
    assert after == issues + (AllLineIssues(draft.lines) + country);
    Pushed(issues, AllLineIssues(draft.lines) + country, ReasonIssues(draft.lines, order));
    after := CheckReasons(draft.lines, order, reasons, after);
    KeysInOrder(draft.lines, order, reasons);
  }

  lemma KeysInOrder(lines: seq<DraftLine>, order: seq<ReasonKey>, reasons: map<ReasonKey, seq<string>>)
    requires Collected(lines, order, reasons)
    ensures order == ReasonKeys(lines)
  {}

  lemma NothingCollected(lines: seq<DraftLine>)
    ensures Collected(lines[..0], [], map[])
  {}

  method CheckReasons(ghost lines: seq<DraftLine>, order: seq<ReasonKey>, reasons: map<ReasonKey, seq<string>>, issues: seq<Issue>)
    returns (after: seq<Issue>)
    requires Collected(lines, order, reasons)
    ensures after == issues + ReasonIssues(lines, order)
  {
    hide ReasonKeys, Reasons;
    after := issues;
    for k := 0 to |order|
      invariant after == issues + ReasonIssues(lines, order[..k])
    {
      assert order[..k + 1][..k] == order[..k];
      assert order[k] in order;
      var given := reasons[order[k]];
      Pushed(issues, ReasonIssues(lines, order[..k]), SeveralReasonsIssues(order[k], given));
      if |given| > 1 {
        after := after + [Issue(SeveralReasons(order[k].category, given[0]), Warning)];
      }
    }
    assert order[..|order|] == order;
  }

  /** What the totals add, once nothing else is wrong. */
  function TotalsIssues(draft: InvoiceDraft): seq<Issue> {
    match Computed(draft)
    case Err(error) => [Issue(UnreadableAmount(error), Error)]
    case Ok(invoice) =>
      var totals := invoice.totals;
      When(Compare(totals.duePayableAmount, ZERO) > 0 && !Stated(draft.dueDate) && !Stated(draft.paymentTerms), NoDueDate, Error) +
      When(Compare(totals.prepaidAmount, totals.grandTotalAmount) > 0, PrepaidTooHigh, Error)
  }

  function Checked(draft: InvoiceDraft, elsewhere: seq<Issue>): CheckResult {
    var issues := elsewhere + LinesIssues(draft);
    var all := if HasError(issues) then issues else issues + TotalsIssues(draft);
    CheckResult(!HasError(all), all)
  }

  method CheckTotals(draft: InvoiceDraft, issues: seq<Issue>) returns (after: seq<Issue>)
    ensures after == issues + TotalsIssues(draft)
  {
    hide Computed, Compare, Stated, Invoicing.InvoiceMeans, Invoicing.IsFirstUnreadable;
    var computed := Invoicing.ComputeInvoice(draft);
    if computed.Err? {
      return issues + [Issue(UnreadableAmount(computed.error), Error)];
    }
    var totals := computed.value.totals;
    after := issues;
    if Compare(totals.duePayableAmount, ZERO) > 0 && !Stated(draft.dueDate) && !Stated(draft.paymentTerms) {
      after := after + [Issue(NoDueDate, Error)];
    }
    if Compare(totals.prepaidAmount, totals.grandTotalAmount) > 0 {
      after := after + [Issue(PrepaidTooHigh, Error)];
    }
  }

  /** The whole check; `elsewhere` is what the checks of the header and of the parties have pushed. */
  method Check(draft: InvoiceDraft, elsewhere: seq<Issue>) returns (result: CheckResult)
    ensures result == Checked(draft, elsewhere)
  {
    hide HasError, LinesIssues, TotalsIssues;
    var issues := CheckLines(draft, elsewhere);
    if !HasError(issues) {
      issues := CheckTotals(draft, issues);
    }
    result := CheckResult(!HasError(issues), issues);
  }
}
