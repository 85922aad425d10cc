/** What acceptance of a draft guarantees, exactly when it is given, and where it stops short of the standard. */
module CheckDraftLaws {
  import opened Prelude
  import opened Seqs
  import opened Money
  import opened DecimalText
  import opened Draft
  import opened Compute
  import opened ComputeLaws
  import opened CheckDraft

  // ---------------------------------------------------------------------- errors, piece by piece

  /** A line nobody objects to. */
  ghost predicate LineFits(line: DraftLine) {
    && !Blank(Some(line.name)) && !Blank(Some(line.unitCode))
    && ParseDecimal(Some(line.quantity)).Some? && ParseDecimal(Some(line.unitPrice)).Some?
    && ParseDecimal(Some(line.vatRatePercent)).Some?
    && RateFits(line.vatCategory, ParseDecimal(Some(line.vatRatePercent)).value, line.exemptionReason)
  }

  lemma OneError(problem: Problem)
    ensures HasError([Issue(problem, Error)])
  {
    assert [Issue(problem, Error)][0].severity == Error;
  }

  lemma QuantityErrors(line: DraftLine, k: nat)
    ensures HasError(QuantityIssues(line, k)) <==> ParseDecimal(Some(line.quantity)).None?
  {
    hide ParseDecimal;
    match ParseDecimal(Some(line.quantity))
    case None => OneError(UnreadableQuantity(k));
    case Some(quantity) => ErrorWhen(IsZero(quantity), ZeroQuantity(k), Warning);
  }

  lemma RateErrors(line: DraftLine, k: nat)
    ensures HasError(RateIssues(line, k)) <==>
              !(ParseDecimal(Some(line.vatRatePercent)).Some? &&
                RateFits(line.vatCategory, ParseDecimal(Some(line.vatRatePercent)).value, line.exemptionReason))
  {
    hide ParseDecimal, VatIssues;
    if line.vatCategory.Unlisted? {
      OneError(UnknownCategory(k));
    } else {
      match ParseDecimal(Some(line.vatRatePercent))
      case None => OneError(UnreadableRate(k));
      case Some(rate) => VatErrors(line.vatCategory, rate, line.exemptionReason, k);
    }
  }

  lemma LineErrors(line: DraftLine, k: nat)
    ensures HasError(LineIssues(line, k)) <==> !LineFits(line)
  {
    var name, unit := When(Blank(Some(line.name)), BlankName(k), Error), When(Blank(Some(line.unitCode)), BlankUnit(k), Error);
    var described := When(!Blank(line.description), DescriptionDropped(k), Warning);
    var price := When(ParseDecimal(Some(line.unitPrice)).None?, UnreadablePrice(k), Error);
    ErrorsSplit(name + unit + described + QuantityIssues(line, k) + price, RateIssues(line, k));
    ErrorsSplit(name + unit + described + QuantityIssues(line, k), price);
    ErrorsSplit(name + unit + described, QuantityIssues(line, k));
    ErrorsSplit(name + unit, described);
    ErrorWhen(!Blank(line.description), DescriptionDropped(k), Warning);
    ErrorsSplit(name, unit);
    ErrorWhen(Blank(Some(line.name)), BlankName(k), Error);
    ErrorWhen(Blank(Some(line.unitCode)), BlankUnit(k), Error);
    ErrorWhen(ParseDecimal(Some(line.unitPrice)).None?, UnreadablePrice(k), Error);
    QuantityErrors(line, k);
    RateErrors(line, k);
    hide When, HasError, QuantityIssues, RateIssues, ParseDecimal, RateFits, Blank;
  }

  lemma {:induction false} AllLineErrors(lines: seq<DraftLine>)
    ensures HasError(AllLineIssues(lines)) <==> exists line :: line in lines && !LineFits(line)
  {
    hide LineFits, LineIssues;
    if lines != [] {
      var front, last := lines[..|lines| - 1], lines[|lines| - 1];
      assert lines == front + [last];
      AllLineErrors(front);
      LineErrors(last, |front|);
      ErrorsSplit(AllLineIssues(front), LineIssues(last, |front|));
    }
  }

  // ---------------------------------------------------------------------- exactly when a draft is accepted

  ghost predicate LinesFit(draft: InvoiceDraft) {
    && draft.lines != []
    && (forall line :: line in draft.lines ==> LineFits(line))
    && ((exists line :: line in draft.lines && line.vatCategory == K) ==> !Blank(draft.deliveryCountryCode))
  }

  /** The amount due is not negative, and when positive something says when to pay it. */
  ghost predicate TotalsFit(draft: InvoiceDraft) {
    && Computed(draft).Ok?
    && var due := Computed(draft).value.totals.duePayableAmount;
       && Value(due) >= 0.0
       && (Value(due) > 0.0 ==> Stated(draft.dueDate) || Stated(draft.paymentTerms))
  }

  lemma {:induction false} ReasonsNeverRefuse(lines: seq<DraftLine>, keys: seq<ReasonKey>)
    ensures !HasError(ReasonIssues(lines, keys))
  {
    hide Reasons;
    if keys != [] {
      var last := keys[|keys| - 1];
      ReasonsNeverRefuse(lines, keys[..|keys| - 1]);
      ErrorsSplit(ReasonIssues(lines, keys[..|keys| - 1]), SeveralReasonsIssues(last, Reasons(lines, last)));
    }
  }

  lemma LinesErrors(draft: InvoiceDraft)
    ensures HasError(LinesIssues(draft)) <==> !LinesFit(draft)
  {
    if draft.lines == [] {
      OneError(NoLines);
    } else {
      var country := HasIntraCommunity(draft.lines) && Blank(draft.deliveryCountryCode);
      AllLineErrors(draft.lines);
      ErrorWhen(country, NoDeliveryCountry, Error);
      ErrorsSplit(AllLineIssues(draft.lines), When(country, NoDeliveryCountry, Error));
      ErrorsSplit(AllLineIssues(draft.lines) + When(country, NoDeliveryCountry, Error), ReasonIssues(draft.lines, ReasonKeys(draft.lines)));
      ReasonsNeverRefuse(draft.lines, ReasonKeys(draft.lines));
      hide AllLineIssues, LineFits, HasError, When, Blank, ReasonIssues, ReasonKeys;
      assert HasIntraCommunity(draft.lines) <==> exists line :: line in draft.lines && line.vatCategory == K;
    }
  }

  lemma TotalsErrors(draft: InvoiceDraft)
    ensures HasError(TotalsIssues(draft)) <==> !TotalsFit(draft)
  {
    hide *;
    if Computed(draft).Ok? {
      var totals := Computed(draft).value.totals;
      TotalsIssuesAre(draft);
      var late := Compare(totals.duePayableAmount, ZERO) > 0 && !Stated(draft.dueDate) && !Stated(draft.paymentTerms);
      var high := Compare(totals.prepaidAmount, totals.grandTotalAmount) > 0;
      ErrorsSplit(When(late, NoDueDate, Error), When(high, PrepaidTooHigh, Error));
      ErrorWhen(late, NoDueDate, Error);
      ErrorWhen(high, PrepaidTooHigh, Error);
      CompareIsExact(totals.duePayableAmount, ZERO);
      CompareIsExact(totals.prepaidAmount, totals.grandTotalAmount);
      ZeroIsZero();
      DueIsDifference(draft);
    } else {
      UnreadableIsError(draft);
    }
    TotalsFitMeans(draft);
  }

  lemma TotalsFitMeans(draft: InvoiceDraft)
    ensures TotalsFit(draft) ==> Computed(draft).Ok?
    ensures Computed(draft).Ok? ==>
              var due := Computed(draft).value.totals.duePayableAmount;
              TotalsFit(draft) <==> Value(due) >= 0.0 && (Value(due) > 0.0 ==> Stated(draft.dueDate) || Stated(draft.paymentTerms))
  {
    hide Computed, Value;
  }

  lemma TotalsIssuesAre(draft: InvoiceDraft)
    requires Computed(draft).Ok?
    ensures var totals := Computed(draft).value.totals;
            TotalsIssues(draft) ==
              When(Compare(totals.duePayableAmount, ZERO) > 0 && !Stated(draft.dueDate) && !Stated(draft.paymentTerms), NoDueDate, Error) +
              When(Compare(totals.prepaidAmount, totals.grandTotalAmount) > 0, PrepaidTooHigh, Error)
  {
    hide Computed, Compare, When;
  }

  lemma UnreadableIsError(draft: InvoiceDraft)
    requires Computed(draft).Err?
    ensures HasError(TotalsIssues(draft))
  {
    hide Computed;
    OneError(UnreadableAmount(Computed(draft).error));
  }

  lemma DueIsDifference(draft: InvoiceDraft)
    requires Computed(draft).Ok?
    ensures var totals := Computed(draft).value.totals;
            Value(totals.duePayableAmount) == Value(totals.grandTotalAmount) - Value(totals.prepaidAmount)
  {
    hide Value;
    var totals := Computed(draft).value.totals;
    AddIsExact(totals.grandTotalAmount, totals.prepaidAmount);
  }

  /** A draft is accepted exactly when nothing else objects, its lines fit and its totals fit. */
  lemma AcceptedIff(draft: InvoiceDraft, elsewhere: seq<Issue>)
    ensures Checked(draft, elsewhere).ok <==> !HasError(elsewhere) && LinesFit(draft) && TotalsFit(draft)
  {
    ErrorsSplit(elsewhere, LinesIssues(draft));
    LinesErrors(draft);
    TotalsErrors(draft);
    ErrorsSplit(elsewhere + LinesIssues(draft), TotalsIssues(draft));
    hide HasError, LinesIssues, TotalsIssues, LinesFit, TotalsFit;
  }

  // ---------------------------------------------------------------------- what its VAT groups look like

  /** The rules of the standard for one VAT group: zero rates, and reasons where they are required and only there. */
  predicate GroupFits(group: ComputedTaxGroup) {
    && !group.categoryCode.Unlisted?
    && (ZeroRated(group.categoryCode) ==> group.ratePercent.value == 0 && group.calculatedAmount.value == 0)
    && (ReasonRequired(group.categoryCode) ==> group.exemptionReason.Some? && !Blank(group.exemptionReason))
    && (!ReasonRequired(group.categoryCode) ==> group.exemptionReason.None?)
    && (group.categoryCode == S ==> group.ratePercent.value >= 0)
  }

  lemma LineOfGroup(draft: InvoiceDraft, key: GroupKey, j: nat) returns (k: nat)
    requires Computed(draft).Ok? && j < |InGroup(Computed(draft).value.lines, key)|
    ensures k < |draft.lines| == |Computed(draft).value.lines|
    ensures Computed(draft).value.lines[k] == InGroup(Computed(draft).value.lines, key)[j]
    ensures ComputeLine(draft.lines[k], k) == Ok(Computed(draft).value.lines[k])
  {
    hide *;
    var lines := Computed(draft).value.lines;
    MembersAreLines(lines, key, j);
    ComputedParts(draft);
    LineFacts(draft.lines);
    k :| 0 <= k < |lines| && lines[k] == InGroup(lines, key)[j];
  }

  /** What the pre-flight check leaves in each computed line. */
  ghost predicate ComputedFits(line: ComputedLine) {
    RateFits(line.vatCategory, line.vatRatePercent, line.source.exemptionReason)
  }

  lemma ComputedLineFits(line: DraftLine, k: nat)
    requires LineFits(line) && ComputeLine(line, k).Ok?
    ensures ComputedFits(ComputeLine(line, k).value)
  {
    hide ParseDecimal, RateFits, Blank, Rescale, Multiply;
  }

  lemma GroupMembersFit(draft: InvoiceDraft, key: GroupKey)
    requires LinesFit(draft) && Computed(draft).Ok?
    ensures forall j :: 0 <= j < |InGroup(Computed(draft).value.lines, key)| ==> ComputedFits(InGroup(Computed(draft).value.lines, key)[j])
  {
    var members := InGroup(Computed(draft).value.lines, key);
    hide Computed, InGroup, LineFits, ComputedFits, ComputeLine;
    forall j | 0 <= j < |members| ensures ComputedFits(members[j]) {
      var k := LineOfGroup(draft, key, j);
      ComputedLineFits(draft.lines[k], k);
    }
  }

  lemma NoVatAtZero(basis: Decimal)
    ensures VatOn(basis, Decimal(0, MONETARY_SCALE)).value == 0
  {
    var product := Multiply(basis, Decimal(0, MONETARY_SCALE));
    assert product.value == 0;
  }

  lemma StatedReason(members: seq<ComputedLine>)
    requires members != [] && !Blank(members[0].source.exemptionReason)
    ensures FirstReason(members) == members[0].source.exemptionReason
  {}

  lemma ZeroStaysZero(rate: Decimal)
    requires rate.value == 0
    ensures Rescale(rate, MONETARY_SCALE).value == 0
  {}

  /** Rounded to two decimals, a positive rate vanishes exactly below half a hundredth. */
  lemma PositiveRateRounds(rate: Decimal)
    requires Value(rate) > 0.0
    ensures Rescale(rate, MONETARY_SCALE).value >= 0
    ensures Rescale(rate, MONETARY_SCALE).value == 0 <==> Value(rate) < 0.005
  {
    var half := Decimal(5, 3);
    assert Pow10(3) == 1000 && Pow10(2) == 100 && Pow10(1) == 10;
    assert Value(half) == 0.005 && Rescale(half, MONETARY_SCALE) == Decimal(1, 2);
    ZeroIsZero();
    ZeroStaysZero(ZERO);
    var rounded := Rescale(rate, MONETARY_SCALE);
    RescaleHasScale(rate, MONETARY_SCALE);
    RoundedToTheCent(rate);
    hide Rescale;
    RescaleIsMonotone(ZERO, rate, MONETARY_SCALE);
    if Value(rate) >= 0.005 {
      RescaleIsMonotone(half, rate, MONETARY_SCALE);
    } else {
      BelowOneCent(rounded);
    }
  }

  lemma BelowOneCent(d: Decimal)
    requires d.scale == MONETARY_SCALE && Value(d) < 0.01
    ensures d.value <= 0
  {
    assert Pow10(2) == 100;
    RatioOrders(d.value, 1, 100);
    assert Ratio(1, 100) == 0.01;
  }

  lemma GroupOfFittingLines(key: GroupKey, members: seq<ComputedLine>)
    requires members != [] && ComputedFits(members[0]) && KeyOf(members[0]) == key
    ensures GroupFits(GroupOf(key, members))
  {
    var rate := members[0].vatRatePercent;
    var basis := Sum(Nets(members));
    if ZeroRated(key.category) {
      ZeroStaysZero(rate);
      NoVatAtZero(basis);
    }
    if ReasonRequired(key.category) {
      StatedReason(members);
    }
    if key.category == S {
      PositiveRateRounds(rate);
    }
    hide Rescale, Sum, Nets, VatOn, FirstReason, Blank, Value;
  }

  /**
   An accepted draft computes, owes nothing negative, says when to pay what it owes, and each of its
   VAT groups obeys the rules on zero rates and exemption reasons.
   */
  lemma AcceptedDraftIsSound(draft: InvoiceDraft, elsewhere: seq<Issue>)
    requires Checked(draft, elsewhere).ok
    ensures Computed(draft).Ok?
    ensures var due := Computed(draft).value.totals.duePayableAmount;
            due.value >= 0 && (due.value > 0 ==> Stated(draft.dueDate) || Stated(draft.paymentTerms))
    ensures forall group :: group in Computed(draft).value.taxGroups ==> GroupFits(group)
    ensures (exists group :: group in Computed(draft).value.taxGroups && group.categoryCode == K) ==> !Blank(draft.deliveryCountryCode)
  {
    hide *;
    AcceptedIff(draft, elsewhere);
    TotalsFitMeans(draft);
    var totals := Computed(draft).value.totals;
    SignOf(totals.duePayableAmount);
    forall group | group in Computed(draft).value.taxGroups
      ensures GroupFits(group) && (group.categoryCode == K ==> !Blank(draft.deliveryCountryCode))
    {
      AcceptedGroupFits(draft, group);
    }
  }

  lemma SignOf(d: Decimal)
    ensures d.value >= 0 <==> Value(d) >= 0.0
    ensures d.value > 0 <==> Value(d) > 0.0
  {
    RatioOrders(0, d.value, Pow10(d.scale));
    assert Ratio(0, Pow10(d.scale)) == 0.0;
    RatioOrders(d.value, 0, Pow10(d.scale));
  }

  lemma AcceptedGroupFits(draft: InvoiceDraft, group: ComputedTaxGroup)
    requires LinesFit(draft) && Computed(draft).Ok? && group in Computed(draft).value.taxGroups
    ensures GroupFits(group)
    ensures group.categoryCode == K ==> !Blank(draft.deliveryCountryCode)
  {
    var lines := Computed(draft).value.lines;
    var k :| 0 <= k < |Computed(draft).value.taxGroups| && Computed(draft).value.taxGroups[k] == group;
    var key := Keys(lines)[k];
    var members := InGroup(lines, key);
    assert group == GroupOf(key, members);
    KeysAreDistinct(lines);
    assert key in Keys(lines);
    GroupsShareKey(lines, key);
    GroupMembersFit(draft, key);
    GroupOfFittingLines(key, members);
    var i := LineOfGroup(draft, key, 0);
    assert group.categoryCode == key.category == members[0].vatCategory;
    SameCategory(draft.lines[i], i);
    hide Computed, GroupFits, LineFits, Blank;
  }

  lemma SameCategory(line: DraftLine, k: nat)
    requires ComputeLine(line, k).Ok?
    ensures ComputeLine(line, k).value.vatCategory == line.vatCategory
  {}

  // ---------------------------------------------------------------------- where acceptance stops short

  /** Standard-rated groups must carry a positive rate (rule BR-S-05). */
  predicate StandardRatesPositive(groups: seq<ComputedTaxGroup>) {
    forall k :: 0 <= k < |groups| && groups[k].categoryCode == S ==> groups[k].ratePercent.value > 0
  }

  ghost predicate RateShows(line: DraftLine) {
    line.vatCategory == S && ParseDecimal(Some(line.vatRatePercent)).Some? ==>
      Value(ParseDecimal(Some(line.vatRatePercent)).value) >= 0.005
  }

  predicate KeyShows(key: GroupKey) {
    key.category == S ==> key.rate > 0
  }

  lemma LineShows(line: DraftLine, k: nat)
    requires LineFits(line) && ComputeLine(line, k).Ok?
    ensures KeyShows(KeyOf(ComputeLine(line, k).value)) <==> RateShows(line)
  {
    hide Blank, Value, Rescale, ParseDecimal;
    if line.vatCategory == S {
      PositiveRateRounds(ParseDecimal(Some(line.vatRatePercent)).value);
    }
  }

  lemma GroupsFollowKeys(draft: InvoiceDraft)
    requires Computed(draft).Ok?
    ensures var lines, groups := Computed(draft).value.lines, Computed(draft).value.taxGroups;
            && |groups| == |Keys(lines)|
            && forall k :: 0 <= k < |groups| ==> groups[k].categoryCode == Keys(lines)[k].category && groups[k].ratePercent.value == Keys(lines)[k].rate
  {}

  lemma GroupsShow(draft: InvoiceDraft)
    requires Computed(draft).Ok?
    ensures var lines, groups := Computed(draft).value.lines, Computed(draft).value.taxGroups;
            StandardRatesPositive(groups) <==> forall k :: 0 <= k < |Keys(lines)| ==> KeyShows(Keys(lines)[k])
  {
    hide Computed, Keys;
    GroupsFollowKeys(draft);
    var lines, groups := Computed(draft).value.lines, Computed(draft).value.taxGroups;
    assert forall k :: 0 <= k < |groups| ==> (KeyShows(Keys(lines)[k]) <==> (groups[k].categoryCode == S ==> groups[k].ratePercent.value > 0));
  }

  lemma KeysShow(lines: seq<ComputedLine>)
    ensures (forall k :: 0 <= k < |Keys(lines)| ==> KeyShows(Keys(lines)[k])) <==> forall k :: 0 <= k < |lines| ==> KeyShows(KeyOf(lines[k]))
  {
    KeysAreDistinct(lines);
    hide KeyShows, KeyOf;
    if forall k :: 0 <= k < |Keys(lines)| ==> KeyShows(Keys(lines)[k]) {
      forall k | 0 <= k < |lines| ensures KeyShows(KeyOf(lines[k])) {
        assert KeyOf(lines[k]) in Keys(lines);
        var j :| 0 <= j < |Keys(lines)| && Keys(lines)[j] == KeyOf(lines[k]);
      }
    }
    if forall k :: 0 <= k < |lines| ==> KeyShows(KeyOf(lines[k])) {
      forall k | 0 <= k < |Keys(lines)| ensures KeyShows(Keys(lines)[k]) {
        assert Keys(lines)[k] in Keys(lines);
        var j :| 0 <= j < |lines| && KeyOf(lines[j]) == Keys(lines)[k];
      }
    }
  }

  /**
   The check compares the rate as typed, the document carries it to two decimals: an accepted draft's
   standard-rated groups all carry a positive rate exactly when no standard-rated line has a rate below 0.005.
   */
  lemma StandardRatesPositiveIff(draft: InvoiceDraft, elsewhere: seq<Issue>)
    requires Checked(draft, elsewhere).ok
    ensures Computed(draft).Ok?
    ensures StandardRatesPositive(Computed(draft).value.taxGroups) <==> forall line :: line in draft.lines ==> RateShows(line)
  {
    hide Checked, LineFits, Computed, RateShows, ComputeLine, ComputeLines, KeyOf, KeyShows;
    AcceptedIff(draft, elsewhere);
    var lines := Computed(draft).value.lines;
    ComputedParts(draft);
    LineFacts(draft.lines);
    GroupsShow(draft);
    KeysShow(lines);
    forall k | 0 <= k < |lines| ensures KeyShows(KeyOf(lines[k])) <==> RateShows(draft.lines[k]) {
      assert draft.lines[k] in draft.lines;
      LineShows(draft.lines[k], k);
    }
    assert forall k :: 0 <= k < |lines| ==> draft.lines[k] in draft.lines;
  }

  /** One line at a rate of 0.001 percent. */
  function TinyLine(): DraftLine {
    DraftLine("n", None, "u", Format(Decimal(1, 0)), Format(Decimal(1, 0)), S, Format(Decimal(1, 3)), None)
  }

  function TinyDraft(): InvoiceDraft {
    InvoiceDraft([TinyLine()], None, Some("d"), None, None)
  }

  lemma TinyFits()
    ensures LinesFit(TinyDraft()) && !RateShows(TinyLine())
  {
    hide Trim, ParseDecimal, Format, Value;
    FormatParses(Decimal(1, 0));
    FormatParses(Decimal(1, 3));
    TrimKeepsOne('n');
    TrimKeepsOne('u');
    Thousandth();
    assert LineFits(TinyLine());
  }

  lemma Thousandth()
    ensures Value(Decimal(1, 3)) == 0.001
  {
    assert Pow10(3) == 1000;
  }

  lemma TrimKeepsOne(c: char)
    requires !IsSpace(c)
    ensures Trim([c]) == [c]
  {}

  lemma TinyLineComputes() returns (line: ComputedLine)
    ensures ComputeLines(TinyDraft().lines) == Ok([line])
    ensures line.netAmount == Decimal(100, 2) && KeyOf(line) == GroupKey(S, 0)
  {
    hide Format, ParseDecimal, Rescale, Multiply;
    FormatParses(Decimal(1, 0));
    FormatParses(Decimal(1, 3));
    TinyAmounts();
    line := ComputeLine(TinyLine(), 0).value;
    hide ComputeLine;
    assert [TinyLine()][..0] == [] && ComputeLines([]) == Ok([]);
    assert [] + [line] == [line];
  }

  lemma TinyAmounts()
    ensures Rescale(Multiply(Decimal(1, 0), Decimal(1, 0)), MONETARY_SCALE) == Decimal(100, 2)
    ensures Rescale(Decimal(1, 3), MONETARY_SCALE).value == 0
  {
    OneEuro(Decimal(1, 0));
    Thousandth();
    hide Value, Rescale;
    PositiveRateRounds(Decimal(1, 3));
  }

  lemma OneEuro(d: Decimal)
    requires d.value == 1 && d.scale == 0
    ensures Rescale(d, MONETARY_SCALE) == Decimal(100, 2)
  {
    assert Pow10(2) == 100;
  }

  lemma KeysOfOne(line: ComputedLine)
    ensures Keys([line]) == [KeyOf(line)]
  {
    assert [line][..0] == [] && Keys([]) == [];
  }

  lemma TinyIsOwed()
    ensures TotalsFit(TinyDraft())
  {
    hide ComputeLines, Keys, Format, Value;
    var line := TinyLineComputes();
    KeysOfOne(line);
    TotalsAddUp(TinyDraft());
    var invoice := Computed(TinyDraft()).value;
    NoVatAtZero(invoice.taxGroups[0].basisAmount);
    assert TaxOf(invoice.taxGroups[0]).value == 0;
    hide Computed, TaxOf;
    TotalOfOne(Map(TaxOf, invoice.taxGroups));
    TotalOfOne(Nets(invoice.lines));
    SignOf(invoice.totals.duePayableAmount);
  }

  lemma TotalOfOne(amounts: seq<Decimal>)
    requires |amounts| == 1
    ensures Total(amounts) == amounts[0].value
  {
    assert amounts[..0] == [];
  }

  /** Accepted, and yet its standard-rated group is emitted at 0.00 percent. */
  lemma TinyRateIsEmittedAsZero()
    ensures Checked(TinyDraft(), []).ok && Computed(TinyDraft()).Ok?
    ensures !StandardRatesPositive(Computed(TinyDraft()).value.taxGroups)
  {
    assert TinyLine() in TinyDraft().lines;
    hide *;
    TinyFits();
    TinyIsOwed();
    NoError();
    AcceptedIff(TinyDraft(), []);
    StandardRatesPositiveIff(TinyDraft(), []);
  }

  lemma NoError()
    ensures !HasError([])
  {}

  // ---------------------------------------------------------------------- reasons that disagree

  ghost predicate Gives(line: DraftLine, key: ReasonKey, reason: string) {
    GivesReason(line) && ReasonKeyOf(line) == key && Trim(line.exemptionReason.value) == reason
  }

  /** Everything given under a key, each reason once. */
  lemma {:induction false} ReasonsAreGiven(lines: seq<DraftLine>, key: ReasonKey)
    ensures Distinct(Reasons(lines, key))
    ensures forall reason :: reason in Reasons(lines, key) <==> exists line :: line in lines && Gives(line, key, reason)
    ensures key in ReasonKeys(lines) <==> Reasons(lines, key) != []
  {
    hide ParseDecimal, Trim;
    if lines != [] {
      var front, last := lines[..|lines| - 1], lines[|lines| - 1];
      assert forall line :: line in lines <==> line in front || line == last;
      ReasonsAreGiven(front, key);
      assert Gives(last, key, Trim(last.exemptionReason.UnwrapOr(""))) <==> GivesReason(last) && ReasonKeyOf(last) == key;
      forall reason ensures reason in Reasons(lines, key) <==> exists line :: line in lines && Gives(line, key, reason) {
        assert reason in Reasons(lines, key) <==> reason in Reasons(front, key) || Gives(last, key, reason);
      }
    }
  }

  /** Two lines of one category and one spelling of the rate that give different reasons. */
  ghost predicate Clash(a: DraftLine, b: DraftLine) {
    && GivesReason(a) && GivesReason(b) && ReasonKeyOf(a) == ReasonKeyOf(b)
    && Trim(a.exemptionReason.value) != Trim(b.exemptionReason.value)
  }

  lemma SeveralIffClash(lines: seq<DraftLine>, key: ReasonKey)
    ensures |Reasons(lines, key)| > 1 <==> exists a, b :: a in lines && b in lines && Clash(a, b) && ReasonKeyOf(a) == key
  {
    ReasonsAreGiven(lines, key);
    var given := Reasons(lines, key);
    hide Reasons, ParseDecimal, Trim;
    if |given| > 1 {
      assert given[0] in given && given[1] in given;
      var a :| a in lines && Gives(a, key, given[0]);
      var b :| b in lines && Gives(b, key, given[1]);
      assert Clash(a, b);
    }
    if a, b :| a in lines && b in lines && Clash(a, b) && ReasonKeyOf(a) == key {
      assert Gives(a, key, Trim(a.exemptionReason.value)) && Gives(b, key, Trim(b.exemptionReason.value));
      assert Trim(a.exemptionReason.value) in given && Trim(b.exemptionReason.value) in given;
    }
  }

  lemma {:induction false} SomeKeyHasSeveral(lines: seq<DraftLine>, keys: seq<ReasonKey>)
    ensures ReasonIssues(lines, keys) != [] <==> exists key :: key in keys && |Reasons(lines, key)| > 1
  {
    hide Reasons;
    if keys != [] {
      var front, last := keys[..|keys| - 1], keys[|keys| - 1];
      assert keys == front + [last];
      SomeKeyHasSeveral(lines, front);
      assert SeveralReasonsIssues(last, Reasons(lines, last)) != [] <==> |Reasons(lines, last)| > 1;
      assert forall key :: key in keys <==> key in front || key == last;
    }
  }

  /** The user is warned of several reasons exactly when two lines of one category and one spelling of the rate disagree. */
  lemma ReasonWarningIff(lines: seq<DraftLine>)
    ensures ReasonIssues(lines, ReasonKeys(lines)) != [] <==> exists a, b :: a in lines && b in lines && Clash(a, b)
  {
    SomeKeyHasSeveral(lines, ReasonKeys(lines));
    hide ReasonIssues, Clash;
    if key :| key in ReasonKeys(lines) && |Reasons(lines, key)| > 1 {
      SeveralIffClash(lines, key);
    }
    if a, b :| a in lines && b in lines && Clash(a, b) {
      SeveralIffClash(lines, ReasonKeyOf(a));
      ReasonsAreGiven(lines, ReasonKeyOf(a));
    }
  }

  /** Lines of one VAT group give one reason, which is then the one the document states for them. */
  ghost predicate GroupsAgree(lines: seq<ComputedLine>) {
    forall a, b :: a in lines && b in lines && KeyOf(a) == KeyOf(b) && ReasonRequired(a.vatCategory) ==>
      SameReason(a.source, b.source)
  }

  predicate SameReason(a: DraftLine, b: DraftLine) {
    && a.exemptionReason.Some? && b.exemptionReason.Some?
    && Trim(a.exemptionReason.value) == Trim(b.exemptionReason.value)
  }

  /** Lines of one category that spell its rate of zero differently give one reason all the same. */
  ghost predicate SpellingsAgree(lines: seq<DraftLine>) {
    forall a, b :: (a in lines && b in lines && a.vatCategory == b.vatCategory && ReasonRequired(a.vatCategory) &&
                    a.vatRatePercent != b.vatRatePercent) ==> SameReason(a, b)
  }

  /** A line that fits and needs a reason gives one, and goes into its category's group at rate zero. */
  lemma ReasonedLine(line: DraftLine, k: nat)
    requires LineFits(line) && ComputeLine(line, k).Ok?
    ensures var computed := ComputeLine(line, k).value;
            && computed.source == line && computed.vatCategory == line.vatCategory
            && (ReasonRequired(line.vatCategory) ==> GivesReason(line) && KeyOf(computed) == GroupKey(line.vatCategory, 0))
  {
    hide ParseDecimal, Trim, Rescale, Multiply, Value;
    if ReasonRequired(line.vatCategory) {
      ZeroStaysZero(ParseDecimal(Some(line.vatRatePercent)).value);
    }
  }

  ghost predicate CategoriesAgree(lines: seq<DraftLine>) {
    forall a, b :: a in lines && b in lines && a.vatCategory == b.vatCategory && ReasonRequired(a.vatCategory) ==> SameReason(a, b)
  }

  ghost predicate Computes(line: DraftLine, computed: ComputedLine) {
    && computed.source == line && computed.vatCategory == line.vatCategory
    && (ReasonRequired(line.vatCategory) ==> GivesReason(line) && KeyOf(computed) == GroupKey(line.vatCategory, 0))
  }

  lemma AgreeByCategory(lines: seq<DraftLine>, computed: seq<ComputedLine>)
    requires |computed| == |lines| && forall k :: 0 <= k < |lines| ==> Computes(lines[k], computed[k])
    ensures GroupsAgree(computed) <==> CategoriesAgree(lines)
  {
    hide GivesReason, SameReason, KeyOf;
    if CategoriesAgree(lines) {
      forall a, b | a in computed && b in computed && KeyOf(a) == KeyOf(b) && ReasonRequired(a.vatCategory)
        ensures SameReason(a.source, b.source)
      {
        var i :| 0 <= i < |computed| && computed[i] == a;
        var j :| 0 <= j < |computed| && computed[j] == b;
        assert Computes(lines[i], a) && Computes(lines[j], b);
        KeyNamesCategory(a);
        KeyNamesCategory(b);
      }
    }
    if GroupsAgree(computed) {
      forall a, b | a in lines && b in lines && a.vatCategory == b.vatCategory && ReasonRequired(a.vatCategory)
        ensures SameReason(a, b)
      {
        var i :| 0 <= i < |lines| && lines[i] == a;
        var j :| 0 <= j < |lines| && lines[j] == b;
        assert Computes(a, computed[i]) && Computes(b, computed[j]);
        assert computed[i] in computed && computed[j] in computed;
      }
    }
  }

  lemma KeyNamesCategory(line: ComputedLine)
    ensures KeyOf(line).category == line.vatCategory
  {}

  lemma AgreeBySpelling(lines: seq<DraftLine>)
    requires forall line :: line in lines && ReasonRequired(line.vatCategory) ==> GivesReason(line)
    ensures CategoriesAgree(lines) <==> SpellingsAgree(lines) && !(exists a, b :: a in lines && b in lines && Clash(a, b))
  {
    hide ParseDecimal, Trim;
    if CategoriesAgree(lines) {
      assert forall a, b :: a in lines && b in lines && Clash(a, b) ==> SameReason(a, b);
    }
    if SpellingsAgree(lines) && !(exists a, b :: a in lines && b in lines && Clash(a, b)) {
      forall a, b | a in lines && b in lines && a.vatCategory == b.vatCategory && ReasonRequired(a.vatCategory)
        ensures SameReason(a, b)
      {
        assert !Clash(a, b);
      }
    }
  }

  /**
   The warning is meant to ensure that the lines of a VAT group agree on their reason. In an accepted
   draft they do exactly when there is no warning and lines that spell the zero rate differently agree too.
   */
  lemma GroupsAgreeIff(draft: InvoiceDraft, elsewhere: seq<Issue>)
    requires Checked(draft, elsewhere).ok
    ensures Computed(draft).Ok?
    ensures GroupsAgree(Computed(draft).value.lines) <==>
              ReasonIssues(draft.lines, ReasonKeys(draft.lines)) == [] && SpellingsAgree(draft.lines)
  {
    hide Checked, LineFits, Computed, ComputeLine, ComputeLines, ReasonIssues, ReasonKeys, GroupsAgree, SpellingsAgree, Clash,
         GivesReason, KeyOf;
    AcceptedIff(draft, elsewhere);
    var lines := Computed(draft).value.lines;
    ComputedParts(draft);
    LineFacts(draft.lines);
    forall k | 0 <= k < |draft.lines| ensures Computes(draft.lines[k], lines[k]) {
      assert draft.lines[k] in draft.lines;
      ReasonedLine(draft.lines[k], k);
    }
    forall line | line in draft.lines && ReasonRequired(line.vatCategory) ensures GivesReason(line) {
      var k :| 0 <= k < |draft.lines| && draft.lines[k] == line;
      assert Computes(draft.lines[k], lines[k]);
    }
    AgreeByCategory(draft.lines, lines);
    AgreeBySpelling(draft.lines);
    ReasonWarningIff(draft.lines);
  }

  /** An exempt line of one euro whose rate of zero is written with `scale` decimals. */
  function ExemptLine(scale: nat, reason: string): DraftLine {
    DraftLine("n", None, "u", Format(Decimal(1, 0)), Format(Decimal(1, 0)), E, Format(Decimal(0, scale)), Some(reason))
  }

  function TwoReasonsDraft(): InvoiceDraft {
    InvoiceDraft([ExemptLine(0, "a"), ExemptLine(2, "b")], None, Some("d"), None, None)
  }

  lemma ExemptLineIs(scale: nat, c: char, k: nat)
    requires !IsSpace(c)
    ensures LineFits(ExemptLine(scale, [c])) && GivesReason(ExemptLine(scale, [c])) && Trim([c]) == [c]
    ensures var line := ComputeLine(ExemptLine(scale, [c]), k);
            line.Ok? && line.value.netAmount == Decimal(100, 2) && KeyOf(line.value) == GroupKey(E, 0)
  {
    hide Trim, ParseDecimal, Format, Value, Rescale, Multiply;
    FormatParses(Decimal(1, 0));
    FormatParses(Decimal(0, scale));
    TrimKeepsOne('n');
    TrimKeepsOne('u');
    TrimKeepsOne(c);
    TinyAmounts();
    ZeroStaysZero(Decimal(0, scale));
  }

  lemma KeysOfTwo(x: ComputedLine, y: ComputedLine)
    requires KeyOf(x) == KeyOf(y)
    ensures Keys([x, y]) == [KeyOf(x)]
  {
    KeysOfOne(x);
    hide KeyOf;
    assert [x, y][..1] == [x];
  }

  lemma LinesOfTwo(a: DraftLine, b: DraftLine, x: ComputedLine, y: ComputedLine)
    requires ComputeLine(a, 0) == Ok(x) && ComputeLine(b, 1) == Ok(y)
    ensures ComputeLines([a, b]) == Ok([x, y])
  {
    hide ComputeLine;
    assert [a, b][..1] == [a] && [a][..0] == [] && ComputeLines([]) == Ok([]);
    assert ComputeLines([a]) == Ok([] + [x]);
    assert [] + [x] == [x] && [x] + [y] == [x, y];
  }

  lemma ExemptLineComputes(scale: nat, c: char, k: nat) returns (line: ComputedLine)
    requires !IsSpace(c)
    ensures ComputeLine(ExemptLine(scale, [c]), k) == Ok(line)
    ensures line.netAmount == Decimal(100, 2) && KeyOf(line) == GroupKey(E, 0)
  {
    ExemptLineIs(scale, c, k);
    line := ComputeLine(ExemptLine(scale, [c]), k).value;
  }

  lemma NetsOfTwo(x: ComputedLine, y: ComputedLine)
    ensures Nets([x, y]) == [x.netAmount, y.netAmount]
  {}

  lemma TwoReasonsCompute() returns (lines: seq<ComputedLine>)
    ensures ComputeLines(TwoReasonsDraft().lines) == Ok(lines) && |lines| == 2
    ensures Nets(lines) == [Decimal(100, 2), Decimal(100, 2)] && Keys(lines) == [GroupKey(E, 0)]
  {
    assert TwoReasonsDraft().lines == [ExemptLine(0, "a"), ExemptLine(2, "b")];
    hide *;
    var x := ExemptLineComputes(0, 'a', 0);
    var y := ExemptLineComputes(2, 'b', 1);
    lines := [x, y];
    NetsOfTwo(x, y);
    KeysOfTwo(x, y);
    LinesOfTwo(ExemptLine(0, "a"), ExemptLine(2, "b"), x, y);
  }

  lemma TotalOfTwo(amounts: seq<Decimal>)
    requires |amounts| == 2
    ensures Total(amounts) == amounts[0].value + amounts[1].value
  {
    TotalOfOne(amounts[..1]);
  }

  lemma TwoReasonsOwed()
    ensures TotalsFit(TwoReasonsDraft())
  {
    hide ComputeLines, Keys, Format, Value;
    var lines := TwoReasonsCompute();
    TotalsAddUp(TwoReasonsDraft());
    var invoice := Computed(TwoReasonsDraft()).value;
    NoVatAtZero(invoice.taxGroups[0].basisAmount);
    assert TaxOf(invoice.taxGroups[0]).value == 0;
    hide Computed, TaxOf;
    TotalOfOne(Map(TaxOf, invoice.taxGroups));
    TotalOfTwo(Nets(invoice.lines));
    SignOf(invoice.totals.duePayableAmount);
  }

  lemma TwoSpellings(a: DraftLine, b: DraftLine)
    requires GivesReason(a) && GivesReason(b) && !SameReason(a, b)
    requires a.vatCategory == b.vatCategory && a.vatRatePercent != b.vatRatePercent
    ensures !SpellingsAgree([a, b])
    ensures forall x, y :: x in [a, b] && y in [a, b] ==> !Clash(x, y)
  {
    hide Trim, ParseDecimal;
    assert a in [a, b] && b in [a, b];
  }

  lemma TwoFit(draft: InvoiceDraft)
    requires |draft.lines| == 2 && LineFits(draft.lines[0]) && LineFits(draft.lines[1])
    requires draft.lines[0].vatCategory == E && draft.lines[1].vatCategory == E
    ensures LinesFit(draft)
  {
    hide LineFits;
  }

  lemma ExemptLinesDiffer()
    ensures var a, b := ExemptLine(0, "a"), ExemptLine(2, "b");
            a.vatRatePercent != b.vatRatePercent && a.vatCategory == b.vatCategory == E && !SameReason(a, b)
  {
    FormatParses(Decimal(0, 0));
    FormatParses(Decimal(0, 2));
    TrimKeepsOne('a');
    TrimKeepsOne('b');
    hide Format, Trim, ParseDecimal;
  }

  lemma TwoReasonsFit()
    ensures LinesFit(TwoReasonsDraft())
    ensures !SpellingsAgree(TwoReasonsDraft().lines)
    ensures forall x, y :: x in TwoReasonsDraft().lines && y in TwoReasonsDraft().lines ==> !Clash(x, y)
  {
    ExemptLineIs(0, 'a', 0);
    ExemptLineIs(2, 'b', 1);
    ExemptLinesDiffer();
    hide ExemptLine, LineFits, GivesReason, Clash, SpellingsAgree, LinesFit, SameReason;
    TwoSpellings(ExemptLine(0, "a"), ExemptLine(2, "b"));
    TwoFit(TwoReasonsDraft());
  }

  /**
   Accepted without a word about reasons, and yet its one VAT group has lines that give two: their rate
   of zero is spelled in two ways.
   */
  lemma TwoReasonsAreNotNoticed()
    ensures Checked(TwoReasonsDraft(), []).ok && Computed(TwoReasonsDraft()).Ok?
    ensures ReasonIssues(TwoReasonsDraft().lines, ReasonKeys(TwoReasonsDraft().lines)) == []
    ensures !GroupsAgree(Computed(TwoReasonsDraft()).value.lines)
  {
    hide *;
    TwoReasonsFit();
    TwoReasonsOwed();
    NoError();
    AcceptedIff(TwoReasonsDraft(), []);
    ReasonWarningIff(TwoReasonsDraft().lines);
    GroupsAgreeIff(TwoReasonsDraft(), []);
  }

}
