/** Every issue the pre-flight check raises and what it is raised for, by value and by category code. */
module CheckedIssues {
  import opened Prelude
  import opened Money
  import opened DecimalText
  import opened Draft
  import opened Compute
  import opened FrenchRates
  import opened CheckDraft
  import opened CheckDraftLaws

  // ---------------------------------------------------------------------- one line

  /** Absent, or nothing but white space. */
  ghost predicate IsMissing(text: Option<string>) {
    text.None? || IsEmptyText(text.value)
  }

  lemma BlankIsMissing(text: Option<string>)
    ensures Blank(text) <==> IsMissing(text)
  {
    if text.Some? {
      TrimIsEmptyIff(text.value);
    }
    hide Trim;
  }

  /** The categories under which VAT is exempt, reversed, intra-community or on export. */
  predicate IsExempting(category: VatCategory) {
    category == E || category == AE || category == K || category == G
  }

  /** The value of an amount as typed, where it is one. */
  ghost function Typed(text: string): Option<real> {
    match ParseDecimal(Some(text))
    case None => None
    case Some(d) => Some(Value(d))
  }

  /** What a line of known category and readable rate deserves. */
  ghost predicate VatDeserves(category: VatCategory, rate: real, reason: Option<string>, k: nat, issue: Issue) {
    match issue.problem
    case RateNotZero(j) => j == k && issue.severity == Error && (IsExempting(category) || category == Z) && rate != 0.0
    case ReasonMissing(j) => j == k && issue.severity == Error && IsExempting(category) && IsMissing(reason)
    case ReasonForbidden(j) => j == k && issue.severity == Warning && category == Z && !IsMissing(reason)
    case RateNotPositive(j) => j == k && issue.severity == Error && category == S && rate <= 0.0
    case UnusualRate(j) =>
      && j == k && issue.severity == Warning && category == S
      && rate > 0.0 && rate != 20.0 && rate != 10.0 && rate != 5.5 && rate != 2.1
    case _ => false
  }

  ghost predicate LineDeserves(line: DraftLine, k: nat, issue: Issue) {
    match issue.problem
    case BlankName(j) => j == k && issue.severity == Error && IsEmptyText(line.name)
    case BlankUnit(j) => j == k && issue.severity == Error && IsEmptyText(line.unitCode)
    case DescriptionDropped(j) => j == k && issue.severity == Warning && !IsMissing(line.description)
    case UnreadableQuantity(j) => j == k && issue.severity == Error && Typed(line.quantity) == None
    case ZeroQuantity(j) => j == k && issue.severity == Warning && Typed(line.quantity) == Some(0.0)
    case UnreadablePrice(j) => j == k && issue.severity == Error && Typed(line.unitPrice) == None
    case UnknownCategory(j) => j == k && issue.severity == Error && line.vatCategory.Unlisted?
    case UnreadableRate(j) =>
      j == k && issue.severity == Error && !line.vatCategory.Unlisted? && Typed(line.vatRatePercent) == None
    case _ =>
      && !line.vatCategory.Unlisted? && Typed(line.vatRatePercent).Some?
      && VatDeserves(line.vatCategory, Typed(line.vatRatePercent).value, line.exemptionReason, k, issue)
  }

  lemma InWhen(condition: bool, problem: Problem, severity: Severity, issue: Issue)
    ensures issue in When(condition, problem, severity) <==> condition && issue == Issue(problem, severity)
  {}

  lemma ZeroByValue(d: Decimal)
    ensures IsZero(d) <==> Value(d) == 0.0
  {
    RatioOrders(d.value, 0, Pow10(d.scale));
    RatioOrders(0, d.value, Pow10(d.scale));
    assert Ratio(0, Pow10(d.scale)) == 0.0;
  }

  lemma VatIssuesAre(category: VatCategory, rate: Decimal, reason: Option<string>, k: nat, issue: Issue)
    requires !category.Unlisted?
    ensures issue in VatIssues(category, rate, reason, k) <==> VatDeserves(category, Value(rate), reason, k, issue)
  {
    InWhen(ZeroRated(category) && !IsZero(rate), RateNotZero(k), Error, issue);
    InWhen(ReasonRequired(category) && Blank(reason), ReasonMissing(k), Error, issue);
    InWhen(category == Z && !Blank(reason), ReasonForbidden(k), Warning, issue);
    InWhen(!HasFrenchValue(Value(rate)), UnusualRate(k), Warning, issue);
    StandardRateMeans(category, rate, k);
    BlankIsMissing(reason);
    ZeroByValue(rate);
    hide When, StandardRateIssues, Blank, IsMissing, IsZero, Value;
  }

  lemma QuantityIssuesAre(line: DraftLine, k: nat, issue: Issue)
    ensures issue in QuantityIssues(line, k) <==>
              || (issue == Issue(UnreadableQuantity(k), Error) && Typed(line.quantity) == None)
              || (issue == Issue(ZeroQuantity(k), Warning) && Typed(line.quantity) == Some(0.0))
  {
    hide ParseDecimal, Value, IsZero;
    match ParseDecimal(Some(line.quantity))
    case None =>
    case Some(quantity) => ZeroByValue(quantity);
  }

  lemma RateIssuesAre(line: DraftLine, k: nat, issue: Issue)
    ensures issue in RateIssues(line, k) <==>
              if line.vatCategory.Unlisted? then issue == Issue(UnknownCategory(k), Error)
              else if Typed(line.vatRatePercent) == None then issue == Issue(UnreadableRate(k), Error)
              else VatDeserves(line.vatCategory, Typed(line.vatRatePercent).value, line.exemptionReason, k, issue)
  {
    hide ParseDecimal, Value, VatIssues, VatDeserves;
    if !line.vatCategory.Unlisted? {
      match ParseDecimal(Some(line.vatRatePercent))
      case None =>
      case Some(rate) => VatIssuesAre(line.vatCategory, rate, line.exemptionReason, k, issue);
    }
  }

  lemma LineIssuesAre(line: DraftLine, k: nat, issue: Issue)
    ensures issue in LineIssues(line, k) <==> LineDeserves(line, k, issue)
  {
    InWhen(Blank(Some(line.name)), BlankName(k), Error, issue);
    InWhen(Blank(Some(line.unitCode)), BlankUnit(k), Error, issue);
    InWhen(!Blank(line.description), DescriptionDropped(k), Warning, issue);
    InWhen(ParseDecimal(Some(line.unitPrice)).None?, UnreadablePrice(k), Error, issue);
    BlankIsMissing(Some(line.name));
    BlankIsMissing(Some(line.unitCode));
    BlankIsMissing(line.description);
    QuantityIssuesAre(line, k, issue);
    RateIssuesAre(line, k, issue);
    hide When, Blank, QuantityIssues, RateIssues, IsEmptyText, ParseDecimal, Value;
  }

  lemma {:induction false} AllLineIssuesAre(lines: seq<DraftLine>, issue: Issue)
    ensures issue in AllLineIssues(lines) <==> exists k :: 0 <= k < |lines| && LineDeserves(lines[k], k, issue)
  {
    hide LineIssues, LineDeserves;
    if lines != [] {
      var n := |lines| - 1;
      AllLineIssuesAre(lines[..n], issue);
      LineIssuesAre(lines[n], n, issue);
      assert forall k :: 0 <= k < n ==> lines[..n][k] == lines[k];
    }
  }

  // ---------------------------------------------------------------------- the reasons given

  /** A line that counts: exempting, its rate readable, its reason given. */
  ghost predicate Reasoned(line: DraftLine) {
    IsExempting(line.vatCategory) && Typed(line.vatRatePercent).Some? && !IsMissing(line.exemptionReason)
  }

  /** What a line gives as its reason, white space around it left out. */
  ghost function GivenBy(line: DraftLine): string {
    Trim(line.exemptionReason.UnwrapOr(""))
  }

  /** A line that gives a reason under this category and this spelling of the rate. */
  ghost predicate ReasonedAs(line: DraftLine, category: VatCategory, rate: string) {
    Reasoned(line) && line.vatCategory == category && line.vatRatePercent == rate
  }

  /** The first line to give a reason under its category and spelling of the rate. */
  ghost predicate IsFirst(lines: seq<DraftLine>, k: int) {
    && 0 <= k < |lines| && Reasoned(lines[k])
    && forall j :: 0 <= j < k ==> !ReasonedAs(lines[j], lines[k].vatCategory, lines[k].vatRatePercent)
  }

  /** Its reason is kept for the group, and another line of that category and spelling gives another. */
  ghost predicate KeptOfSeveral(lines: seq<DraftLine>, k: int, category: VatCategory, kept: string) {
    && IsFirst(lines, k) && lines[k].vatCategory == category && GivenBy(lines[k]) == kept
    && exists other :: other in lines && ReasonedAs(other, category, lines[k].vatRatePercent) && GivenBy(other) != kept
  }

  lemma ReasonedIsGiven(line: DraftLine)
    ensures GivesReason(line) <==> Reasoned(line)
    ensures Reasoned(line) ==> line.exemptionReason.Some? && GivenBy(line) == Trim(line.exemptionReason.value)
  {
    BlankIsMissing(line.exemptionReason);
    hide ParseDecimal, Blank, Value;
  }

  lemma GivesIs(line: DraftLine, key: ReasonKey, reason: string)
    ensures Gives(line, key, reason) <==> ReasonedAs(line, key.category, key.rate) && GivenBy(line) == reason
  {
    ReasonedIsGiven(line);
    hide GivesReason, Reasoned, Trim, GivenBy;
  }

  lemma ReasonsAppend(front: seq<DraftLine>, last: DraftLine, key: ReasonKey)
    ensures Reasons(front + [last], key) ==
              if ReasonedAs(last, key.category, key.rate) && GivenBy(last) !in Reasons(front, key)
              then Reasons(front, key) + [GivenBy(last)] else Reasons(front, key)
  {
    assert (front + [last])[..|front + [last]| - 1] == front;
    ReasonedIsGiven(last);
    hide GivesReason, Reasoned, Trim, GivenBy;
  }

  ghost predicate HeadedBy(lines: seq<DraftLine>, key: ReasonKey, k: int) {
    && IsFirst(lines, k) && ReasonedAs(lines[k], key.category, key.rate)
    && Reasons(lines, key) != [] && Reasons(lines, key)[0] == GivenBy(lines[k])
  }

  lemma {:induction false} FirstIsKept(lines: seq<DraftLine>, key: ReasonKey)
    ensures Reasons(lines, key) == [] ==> forall k :: 0 <= k < |lines| ==> !ReasonedAs(lines[k], key.category, key.rate)
    ensures Reasons(lines, key) != [] ==> exists k :: HeadedBy(lines, key, k)
  {
    hide Reasoned, GivenBy, Reasons;
    if lines != [] {
      var front, last := lines[..|lines| - 1], lines[|lines| - 1];
      FirstIsKept(front, key);
      assert lines == front + [last];
      ReasonsAppend(front, last, key);
      if Reasons(front, key) != [] {
        var k :| HeadedBy(front, key, k);
        assert HeadedBy(lines, key, k);
      } else if ReasonedAs(last, key.category, key.rate) {
        assert HeadedBy(lines, key, |front|);
      }
    } else {
      NoReasons(key);
    }
  }

  lemma NoReasons(key: ReasonKey)
    ensures Reasons([], key) == []
  {}

  lemma OneHead(lines: seq<DraftLine>, key: ReasonKey, j: int, k: int)
    requires IsFirst(lines, j) && ReasonedAs(lines[j], key.category, key.rate)
    requires IsFirst(lines, k) && ReasonedAs(lines[k], key.category, key.rate)
    ensures j == k
  {
    hide Reasoned;
  }

  ghost predicate Raises(lines: seq<DraftLine>, key: ReasonKey, issue: Issue) {
    |Reasons(lines, key)| > 1 && issue == Issue(SeveralReasons(key.category, Reasons(lines, key)[0]), Warning)
  }

  lemma {:induction false} ReasonIssuesHave(lines: seq<DraftLine>, keys: seq<ReasonKey>, issue: Issue)
    ensures issue in ReasonIssues(lines, keys) <==> exists key :: key in keys && Raises(lines, key, issue)
  {
    hide Reasons;
    if keys != [] {
      var front, last := keys[..|keys| - 1], keys[|keys| - 1];
      ReasonIssuesHave(lines, front, issue);
      assert keys == front + [last];
      assert issue in SeveralReasonsIssues(last, Reasons(lines, last)) <==> Raises(lines, last, issue);
    }
  }

  /** Two different ones among the collected are two different ones given. */
  lemma SeveralAreGiven(lines: seq<DraftLine>, key: ReasonKey, kept: string)
    requires Reasons(lines, key) != [] && kept == Reasons(lines, key)[0]
    ensures |Reasons(lines, key)| > 1 <==>
              exists other :: other in lines && ReasonedAs(other, key.category, key.rate) && GivenBy(other) != kept
  {
    ReasonsAreGiven(lines, key);
    var given := Reasons(lines, key);
    hide Reasons, Reasoned, GivenBy, Trim, GivesReason, Gives, ReasonedAs;
    if |given| > 1 {
      assert given[1] in given;
      var other :| other in lines && Gives(other, key, given[1]);
      GivesIs(other, key, given[1]);
      assert GivenBy(other) != kept;
    }
    if other :| other in lines && ReasonedAs(other, key.category, key.rate) && GivenBy(other) != kept {
      GivesIs(other, key, GivenBy(other));
      assert GivenBy(other) in given;
    }
  }

  lemma RaisedIsKept(lines: seq<DraftLine>, key: ReasonKey, category: VatCategory, kept: string)
    requires Raises(lines, key, Issue(SeveralReasons(category, kept), Warning))
    ensures exists k :: KeptOfSeveral(lines, k, category, kept)
  {
    FirstIsKept(lines, key);
    hide Reasons, Reasoned, GivenBy;
    var k :| HeadedBy(lines, key, k);
    SeveralAreGiven(lines, key, kept);
    assert KeptOfSeveral(lines, k, category, kept);
  }

  lemma KeptIsRaised(lines: seq<DraftLine>, k: int, category: VatCategory, kept: string) returns (key: ReasonKey)
    requires KeptOfSeveral(lines, k, category, kept)
    ensures key in ReasonKeys(lines) && Raises(lines, key, Issue(SeveralReasons(category, kept), Warning))
  {
    key := ReasonKey(category, lines[k].vatRatePercent);
    FirstIsKept(lines, key);
    ReasonsAreGiven(lines, key);
    hide Reasons, Reasoned, GivenBy, ReasonKeys;
    assert ReasonedAs(lines[k], key.category, key.rate);
    var j :| HeadedBy(lines, key, j);
    OneHead(lines, key, j, k);
    SeveralAreGiven(lines, key, kept);
  }

  lemma ReasonIssuesAre(lines: seq<DraftLine>, issue: Issue)
    ensures issue in ReasonIssues(lines, ReasonKeys(lines)) <==>
              && issue.problem.SeveralReasons? && issue.severity == Warning
              && exists k :: KeptOfSeveral(lines, k, issue.problem.category, issue.problem.kept)
  {
    ReasonIssuesHave(lines, ReasonKeys(lines), issue);
    hide ReasonIssues, ReasonKeys, KeptOfSeveral, Raises;
    if key :| key in ReasonKeys(lines) && Raises(lines, key, issue) {
      RaisedIs(lines, key, issue);
      RaisedIsKept(lines, key, issue.problem.category, issue.problem.kept);
    }
    if issue.problem.SeveralReasons? && issue.severity == Warning {
      if k :| KeptOfSeveral(lines, k, issue.problem.category, issue.problem.kept) {
        var key := KeptIsRaised(lines, k, issue.problem.category, issue.problem.kept);
      }
    }
  }

  lemma RaisedIs(lines: seq<DraftLine>, key: ReasonKey, issue: Issue)
    requires Raises(lines, key, issue)
    ensures issue.problem.SeveralReasons? && issue.severity == Warning
  {}

  // ---------------------------------------------------------------------- the whole draft

  /** What the lines of a draft deserve. */
  ghost predicate LinesDeserve(draft: InvoiceDraft, issue: Issue) {
    match issue.problem
    case NoLines => issue.severity == Error && draft.lines == []
    case NoDeliveryCountry =>
      && issue.severity == Error && IsMissing(draft.deliveryCountryCode)
      && exists k :: 0 <= k < |draft.lines| && draft.lines[k].vatCategory == K
    case SeveralReasons(category, kept) =>
      issue.severity == Warning && exists k :: KeptOfSeveral(draft.lines, k, category, kept)
    case _ => exists k :: 0 <= k < |draft.lines| && LineDeserves(draft.lines[k], k, issue)
  }

  lemma NoLineDeserves(line: DraftLine, k: nat, issue: Issue)
    requires issue.problem == NoLines || issue.problem == NoDeliveryCountry || issue.problem.SeveralReasons?
    ensures !LineDeserves(line, k, issue)
  {}

  lemma NoLinesIssuesAre(draft: InvoiceDraft, issue: Issue)
    requires draft.lines == []
    ensures issue in LinesIssues(draft) <==> LinesDeserve(draft, issue)
  {
    NothingKept(draft.lines);
    hide KeptOfSeveral;
  }

  lemma SomeLinesIssuesAre(draft: InvoiceDraft, issue: Issue)
    requires draft.lines != []
    ensures issue in LinesIssues(draft) <==> LinesDeserve(draft, issue)
  {
    AllLineIssuesAre(draft.lines, issue);
    ReasonIssuesAre(draft.lines, issue);
    InWhen(HasIntraCommunity(draft.lines) && Blank(draft.deliveryCountryCode), NoDeliveryCountry, Error, issue);
    BlankIsMissing(draft.deliveryCountryCode);
    hide AllLineIssues, ReasonIssues, ReasonKeys, When, Blank, IsMissing, KeptOfSeveral, LineDeserves;
    forall k | 0 <= k < |draft.lines| && (issue.problem == NoLines || issue.problem == NoDeliveryCountry || issue.problem.SeveralReasons?)
      ensures !LineDeserves(draft.lines[k], k, issue)
    {
      NoLineDeserves(draft.lines[k], k, issue);
    }
  }

  lemma NothingKept(lines: seq<DraftLine>)
    requires lines == []
    ensures forall k, category, kept :: !KeptOfSeveral(lines, k, category, kept)
  {}
  /** What the totals of a draft deserve, looked at last. */
  ghost predicate TotalsDeserve(draft: InvoiceDraft, issue: Issue) {
    match issue.problem
    case UnreadableAmount(error) => issue.severity == Error && Computed(draft) == Err(error)
    case NoDueDate =>
      && issue.severity == Error && Computed(draft).Ok?
      && Value(Computed(draft).value.totals.duePayableAmount) > 0.0
      && (draft.dueDate == None || draft.dueDate == Some("")) && (draft.paymentTerms == None || draft.paymentTerms == Some(""))
    case PrepaidTooHigh =>
      && issue.severity == Error && Computed(draft).Ok?
      && Value(Computed(draft).value.totals.prepaidAmount) > Value(Computed(draft).value.totals.grandTotalAmount)
    case _ => false
  }

  lemma DeservedByTotals(draft: InvoiceDraft, issue: Issue)
    requires Computed(draft).Ok?
    ensures var totals := Computed(draft).value.totals;
            TotalsDeserve(draft, issue) <==>
              || (issue == Issue(NoDueDate, Error) && Value(totals.duePayableAmount) > 0.0 && !Stated(draft.dueDate) && !Stated(draft.paymentTerms))
              || (issue == Issue(PrepaidTooHigh, Error) && Value(totals.prepaidAmount) > Value(totals.grandTotalAmount))
  {
    hide Computed, Value;
  }

  lemma DeservedUnread(draft: InvoiceDraft, issue: Issue)
    requires Computed(draft).Err?
    ensures issue in TotalsIssues(draft) <==> TotalsDeserve(draft, issue)
  {
    hide Computed;
  }

  lemma TotalsIssuesHave(draft: InvoiceDraft, issue: Issue)
    ensures issue in TotalsIssues(draft) <==> TotalsDeserve(draft, issue)
  {
    hide *;
    if Computed(draft).Ok? {
      var totals := Computed(draft).value.totals;
      TotalsIssuesAre(draft);
      InWhen(Compare(totals.duePayableAmount, ZERO) > 0 && !Stated(draft.dueDate) && !Stated(draft.paymentTerms), NoDueDate, Error, issue);
      InWhen(Compare(totals.prepaidAmount, totals.grandTotalAmount) > 0, PrepaidTooHigh, Error, issue);
      CompareIsExact(totals.duePayableAmount, ZERO);
      CompareIsExact(totals.prepaidAmount, totals.grandTotalAmount);
      ZeroIsZero();
      DeservedByTotals(draft, issue);
    } else {
      DeservedUnread(draft, issue);
    }
  }

  /** No error so far: the totals are looked at. */
  ghost predicate NoErrorBefore(draft: InvoiceDraft, elsewhere: seq<Issue>) {
    forall issue: Issue :: issue in elsewhere || LinesDeserve(draft, issue) ==> issue.severity != Error
  }

  lemma LinesIssuesAre(draft: InvoiceDraft, issue: Issue)
    ensures issue in LinesIssues(draft) <==> LinesDeserve(draft, issue)
  {
    hide LinesIssues, LinesDeserve;
    if draft.lines == [] {
      NoLinesIssuesAre(draft, issue);
    } else {
      SomeLinesIssuesAre(draft, issue);
    }
  }

  lemma ErrorBefore(draft: InvoiceDraft, elsewhere: seq<Issue>)
    ensures HasError(elsewhere + LinesIssues(draft)) <==> !NoErrorBefore(draft, elsewhere)
  {
    hide LinesIssues, LinesDeserve;
    var issues := elsewhere + LinesIssues(draft);
    forall issue: Issue ensures issue in issues <==> issue in elsewhere || LinesDeserve(draft, issue) {
      LinesIssuesAre(draft, issue);
    }
    if HasError(issues) {
      var k :| 0 <= k < |issues| && issues[k].severity == Error;
      assert issues[k] in issues;
    }
    if !NoErrorBefore(draft, elsewhere) {
      var issue: Issue :| (issue in elsewhere || LinesDeserve(draft, issue)) && issue.severity == Error;
      assert issue in issues;
    }
  }

  lemma CheckedParts(draft: InvoiceDraft, elsewhere: seq<Issue>)
    ensures var issues := elsewhere + LinesIssues(draft);
            Checked(draft, elsewhere).issues == if HasError(issues) then issues else issues + TotalsIssues(draft)
    ensures Checked(draft, elsewhere).ok <==> !HasError(Checked(draft, elsewhere).issues)
  {
    hide LinesIssues, TotalsIssues, HasError;
  }

  /**
   Every issue of a check, and nothing else: what came from elsewhere, what the lines deserve, and what
   the totals deserve where nothing before them was an error. A draft passes when none of them is one.
   */
  lemma IssuesAreDeserved(draft: InvoiceDraft, elsewhere: seq<Issue>, issue: Issue)
    ensures issue in Checked(draft, elsewhere).issues <==>
              || issue in elsewhere
              || LinesDeserve(draft, issue)
              || (NoErrorBefore(draft, elsewhere) && TotalsDeserve(draft, issue))
    ensures Checked(draft, elsewhere).ok <==> forall k :: 0 <= k < |Checked(draft, elsewhere).issues| ==>
                                                            Checked(draft, elsewhere).issues[k].severity != Error
  {
    LinesIssuesAre(draft, issue);
    TotalsIssuesHave(draft, issue);
    ErrorBefore(draft, elsewhere);
    CheckedParts(draft, elsewhere);
    hide LinesIssues, LinesDeserve, TotalsIssues, TotalsDeserve, Checked, NoErrorBefore;
  }
}
