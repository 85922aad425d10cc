/** What a computed invoice owes to the texts of its draft, amount by amount, and the method that computes one. */
module Invoicing {
  import opened Prelude
  import opened Seqs
  import opened Money
  import opened DecimalText
  import opened Draft
  import opened Compute
  import opened ComputeLaws

  // ---------------------------------------------------------------------- to the cent

  /** `d` is `exact` to the nearest cent, and at exactly half a cent the one further from zero. */
  ghost predicate IsNearestCent(d: Decimal, exact: real) {
    && d.scale == 2
    && RealAbs(Value(d) - exact) <= 0.005
    && (RealAbs(Value(d) - exact) == 0.005 ==> RealAbs(Value(d)) > RealAbs(exact))
  }

  lemma CentsAreHundredths(d: Decimal)
    requires d.scale == 2
    ensures Value(d) * 100.0 == d.value as real
  {
    assert Pow10(2) == 100;
  }

  /** There is only one. */
  lemma OneNearestCent(a: Decimal, b: Decimal, exact: real)
    requires IsNearestCent(a, exact) && IsNearestCent(b, exact)
    ensures a == b
  {
    CentsAreHundredths(a);
    CentsAreHundredths(b);
    hide Value;
    assert a.value - 1 < b.value < a.value + 1;
  }

  lemma RescaledIsNearestCent(d: Decimal)
    ensures IsNearestCent(Rescale(d, MONETARY_SCALE), Value(d))
  {
    RescaleHasScale(d, MONETARY_SCALE);
    if d.scale > MONETARY_SCALE {
      RescaleDownIsNearest(d, MONETARY_SCALE);
      assert Pow10(2) == 100;
      assert HalfUnit(2) == 0.005;
    } else {
      RescaleUpIsExact(d, MONETARY_SCALE);
    }
  }

  // ---------------------------------------------------------------------- a line

  ghost function Product(a: Decimal, b: Decimal): real {
    Value(a) * Value(b)
  }

  /** Quantity times price, to the nearest cent. */
  ghost predicate IsProduct(net: Decimal, quantity: Decimal, unitPrice: Decimal) {
    IsNearestCent(net, Product(quantity, unitPrice))
  }

  /** `rate` per cent of `basis`, to the nearest cent. */
  ghost predicate IsPercentage(tax: Decimal, basis: Decimal, rate: Decimal) {
    IsNearestCent(tax, Product(basis, rate) / 100.0)
  }

  lemma RoundedProduct(a: Decimal, b: Decimal)
    ensures IsProduct(Rescale(Multiply(a, b), MONETARY_SCALE), a, b)
  {
    MultiplyIsExact(a, b);
    assert Value(Multiply(a, b)) == Product(a, b);
    hide Rescale, Multiply, Value, IsNearestCent, Product;
    RescaledIsNearestCent(Multiply(a, b));
  }

  /** The decimal text of `n`, as it is usually written. */
  ghost predicate IsNumberText(text: string, n: nat) {
    text != "" && AllDigits(text) && NumberOf(text) == n && (text[0] == '0' ==> text == "0")
  }

  /** The line at `position`: its amounts are what the draft's own texts say, and its net amount their product. */
  ghost predicate LineMeans(line: DraftLine, position: nat, computed: ComputedLine) {
    && computed.source == line && computed.vatCategory == line.vatCategory
    && IsNumberText(computed.lineId, position + 1)
    && ParseDecimal(Some(line.quantity)) == Some(computed.quantity)
    && ParseDecimal(Some(line.unitPrice)) == Some(computed.unitPrice)
    && ParseDecimal(Some(line.vatRatePercent)) == Some(computed.vatRatePercent)
    && IsProduct(computed.netAmount, computed.quantity, computed.unitPrice)
  }

  lemma NumberIsText(n: nat)
    ensures IsNumberText(DigitsOf(n), n)
  {
    DigitsReadBack(n);
    DigitsHaveNoLeadingZero(n);
    if n == 0 {
      assert DigitsOf(0) == "0";
    }
  }

  lemma LineParts(line: DraftLine, position: nat)
    requires ComputeLine(line, position).Ok?
    ensures var computed := ComputeLine(line, position).value;
            && computed.source == line && computed.vatCategory == line.vatCategory && computed.lineId == DigitsOf(position + 1)
            && ParseDecimal(Some(line.quantity)) == Some(computed.quantity)
            && ParseDecimal(Some(line.unitPrice)) == Some(computed.unitPrice)
            && ParseDecimal(Some(line.vatRatePercent)) == Some(computed.vatRatePercent)
  {
    hide ParseDecimal, Rescale, Multiply, DigitsOf;
  }

  lemma LineIsMeant(line: DraftLine, position: nat)
    requires ComputeLine(line, position).Ok?
    ensures LineMeans(line, position, ComputeLine(line, position).value)
  {
    hide ParseDecimal, Rescale, Multiply, Value, IsNearestCent, IsNumberText, IsProduct, ComputeLine, DigitsOf;
    var computed := ComputeLine(line, position).value;
    NumberIsText(position + 1);
    LineParts(line, position);
    LineIsRounded(line, position);
    RoundedProduct(computed.quantity, computed.unitPrice);
  }

  // ---------------------------------------------------------------------- a group

  /** The lines of one category whose rate is `rate` to the nearest cent, in order. */
  ghost function Belonging(lines: seq<ComputedLine>, category: VatCategory, rate: Decimal): seq<ComputedLine> {
    if lines == [] then []
    else
      var front, last := Belonging(lines[..|lines| - 1], category, rate), lines[|lines| - 1];
      if last.vatCategory == category && IsNearestCent(rate, Value(last.vatRatePercent)) then front + [last] else front
  }

  lemma KeyIsOfCategoryAndRate(line: ComputedLine, key: GroupKey)
    ensures KeyOf(line) == key <==> line.vatCategory == key.category && IsNearestCent(Decimal(key.rate, 2), Value(line.vatRatePercent))
  {
    var rounded := Rescale(line.vatRatePercent, MONETARY_SCALE);
    RescaledIsNearestCent(line.vatRatePercent);
    hide Rescale, Value;
    if IsNearestCent(Decimal(key.rate, 2), Value(line.vatRatePercent)) {
      OneNearestCent(rounded, Decimal(key.rate, 2), Value(line.vatRatePercent));
    }
  }

  lemma {:induction false} GroupIsBelonging(lines: seq<ComputedLine>, key: GroupKey)
    ensures InGroup(lines, key) == Belonging(lines, key.category, Decimal(key.rate, 2))
  {
    hide KeyOf, IsNearestCent, Value;
    if lines != [] {
      GroupIsBelonging(lines[..|lines| - 1], key);
      KeyIsOfCategoryAndRate(lines[|lines| - 1], key);
    }
  }

  /** No reason given. */
  predicate Silent(line: ComputedLine) {
    line.source.exemptionReason == None || line.source.exemptionReason == Some("")
  }

  /** The reason a group states: that of its first line with one, and only where VAT is exempt, reversed, intra-community or on export. */
  predicate ReasonMeans(reason: Option<string>, category: VatCategory, members: seq<ComputedLine>) {
    if category == E || category == AE || category == K || category == G then
      match reason
      case None => forall k :: 0 <= k < |members| ==> Silent(members[k])
      case Some(text) =>
        text != "" && exists k :: 0 <= k < |members| && members[k].source.exemptionReason == Some(text)
                                  && forall j :: 0 <= j < k ==> Silent(members[j])
    else
      reason == None
  }

  lemma {:induction false} FirstReasonIsFirst(members: seq<ComputedLine>, category: VatCategory)
    requires category == E || category == AE || category == K || category == G
    ensures ReasonMeans(FirstReason(members), category, members)
  {
    if members != [] {
      if !Silent(members[0]) {
        assert FirstReason(members) == members[0].source.exemptionReason;
        assert members[0].source.exemptionReason == Some(FirstReason(members).value);
      } else {
        FirstReasonIsFirst(members[1..], category);
        var reason := FirstReason(members[1..]);
        assert FirstReason(members) == reason;
        if reason.Some? {
          var k :| 0 <= k < |members[1..]| && members[1..][k].source.exemptionReason == Some(reason.value)
                   && forall j :: 0 <= j < k ==> Silent(members[1..][j]);
          assert members[k + 1].source.exemptionReason == Some(reason.value);
          forall j | 0 <= j < k + 1 ensures Silent(members[j]) {
            if j > 0 { assert Silent(members[1..][j - 1]); }
          }
        } else {
          forall j | 0 <= j < |members| ensures Silent(members[j]) {
            if j > 0 { assert Silent(members[1..][j - 1]); }
          }
        }
      }
    }
  }

  /** A group sums the lines that belong to it, charges its rate on that sum, and speaks for them. */
  ghost predicate GroupMeans(lines: seq<ComputedLine>, group: ComputedTaxGroup) {
    var members := Belonging(lines, group.categoryCode, group.ratePercent);
    && members != []
    && group.ratePercent.scale == 2
    && group.basisAmount == Decimal(Total(Map((line: ComputedLine) => line.netAmount, members)), 2)
    && IsPercentage(group.calculatedAmount, group.basisAmount, group.ratePercent)
    && ReasonMeans(group.exemptionReason, group.categoryCode, members)
  }

  lemma VatIsNearestCent(basis: Decimal, rate: Decimal)
    ensures IsPercentage(VatOn(basis, rate), basis, rate)
  {
    VatIsRounded(basis, rate);
    VatIsExact(basis, rate);
    assert ExactVat(basis, rate) == Product(basis, rate) / 100.0;
    hide VatOn, ExactlyVat, ExactVat, Rescale, Value;
    RescaledIsNearestCent(ExactlyVat(basis, rate));
  }

  lemma GroupParts(draft: InvoiceDraft, k: nat)
    requires Computed(draft).Ok? && k < |Computed(draft).value.taxGroups|
    ensures var lines, group := Computed(draft).value.lines, Computed(draft).value.taxGroups[k];
            && |Computed(draft).value.taxGroups| == |Keys(lines)| && Keys(lines)[k] in Keys(lines)
            && group.categoryCode == Keys(lines)[k].category && group.ratePercent == Decimal(Keys(lines)[k].rate, 2)
            && group.calculatedAmount == VatOn(group.basisAmount, group.ratePercent)
            && group.exemptionReason == if ReasonRequired(group.categoryCode) then FirstReason(InGroup(lines, Keys(lines)[k])) else None
  {}

  lemma NetsSummed(members: seq<ComputedLine>)
    ensures NetTotal(members) == Total(Map((line: ComputedLine) => line.netAmount, members))
  {
    assert Nets(members) == Map((line: ComputedLine) => line.netAmount, members);
  }

  lemma ReasonIsMeant(members: seq<ComputedLine>, category: VatCategory)
    ensures ReasonMeans(if ReasonRequired(category) then FirstReason(members) else None, category, members)
  {
    if ReasonRequired(category) {
      FirstReasonIsFirst(members, category);
    }
  }

  lemma KeysHaveMembers(lines: seq<ComputedLine>, key: GroupKey)
    requires key in Keys(lines)
    ensures InGroup(lines, key) != []
  {
    KeysAreDistinct(lines);
  }

  lemma GroupIsMeant(draft: InvoiceDraft, k: nat)
    requires Computed(draft).Ok? && k < |Computed(draft).value.taxGroups|
    ensures GroupMeans(Computed(draft).value.lines, Computed(draft).value.taxGroups[k])
  {
    hide Computed, Keys, InGroup, VatOn, FirstReason, ReasonRequired, ReasonMeans, IsNearestCent, IsPercentage, Belonging, NetTotal, Total, Map, Value;
    var lines, group := Computed(draft).value.lines, Computed(draft).value.taxGroups[k];
    GroupParts(draft, k);
    var key := Keys(lines)[k];
    GroupsAreMonetary(draft, k);
    KeysHaveMembers(lines, key);
    GroupIsBelonging(lines, key);
    var members := InGroup(lines, key);
    NetsSummed(members);
    VatIsNearestCent(group.basisAmount, group.ratePercent);
    ReasonIsMeant(members, group.categoryCode);
  }

  // ---------------------------------------------------------------------- the prepayment

  /** What was paid already: the stated amount to the nearest cent, or 0.00 where none is stated. */
  ghost predicate PrepaidMeans(draft: InvoiceDraft, prepaid: Decimal) {
    match draft.prepaidAmount
    case None => prepaid == Decimal(0, 2)
    case Some(text) =>
      if text == "" then prepaid == Decimal(0, 2)
      else ParseDecimal(Some(text)).Some? && IsNearestCent(prepaid, Value(ParseDecimal(Some(text)).value))
  }

  lemma PrepaidIsMeant(draft: InvoiceDraft)
    requires PrepaidOf(draft).Ok?
    ensures PrepaidMeans(draft, PrepaidOf(draft).value)
  {
    hide ParseDecimal, IsNearestCent;
    if Stated(draft.prepaidAmount) {
      RescaledIsNearestCent(ParseDecimal(draft.prepaidAmount).value);
      hide Rescale;
    }
  }

  // ---------------------------------------------------------------------- the invoice

  /** Every line once and in its place. */
  ghost predicate LinesMean(draft: InvoiceDraft, lines: seq<ComputedLine>) {
    && |lines| == |draft.lines|
    && forall k :: 0 <= k < |lines| ==> LineMeans(draft.lines[k], k, lines[k])
  }

  function SortOf(group: ComputedTaxGroup): (VatCategory, Decimal) {
    (group.categoryCode, group.ratePercent)
  }

  ghost predicate IsOfGroup(line: ComputedLine, group: ComputedTaxGroup) {
    line.vatCategory == group.categoryCode && IsNearestCent(group.ratePercent, Value(line.vatRatePercent))
  }

  ghost predicate HasGroup(line: ComputedLine, groups: seq<ComputedTaxGroup>) {
    exists k :: 0 <= k < |groups| && IsOfGroup(line, groups[k])
  }

  /** No two groups alike, and one for every line. */
  ghost predicate GroupsMean(lines: seq<ComputedLine>, groups: seq<ComputedTaxGroup>) {
    && (forall k :: 0 <= k < |groups| ==> GroupMeans(lines, groups[k]))
    && (forall j, k :: 0 <= j < k < |groups| ==> SortOf(groups[j]) != SortOf(groups[k]))
    && (forall k :: 0 <= k < |lines| ==> HasGroup(lines[k], groups))
  }

  /** Totals that follow from lines and groups, and what is left to pay after what was paid. */
  ghost predicate TotalsMean(draft: InvoiceDraft, invoice: ComputedInvoice) {
    var lines, groups, totals := invoice.lines, invoice.taxGroups, invoice.totals;
    && totals.lineTotalAmount == totals.taxBasisTotalAmount == Decimal(Total(Map((line: ComputedLine) => line.netAmount, lines)), 2)
    && totals.taxTotalAmount == Decimal(Total(Map((group: ComputedTaxGroup) => group.calculatedAmount, groups)), 2)
    && totals.grandTotalAmount == Decimal(totals.lineTotalAmount.value + totals.taxTotalAmount.value, 2)
    && PrepaidMeans(draft, totals.prepaidAmount)
    && totals.duePayableAmount == Decimal(totals.grandTotalAmount.value - totals.prepaidAmount.value, 2)
  }

  ghost predicate InvoiceMeans(draft: InvoiceDraft, invoice: ComputedInvoice) {
    LinesMean(draft, invoice.lines) && GroupsMean(invoice.lines, invoice.taxGroups) && TotalsMean(draft, invoice)
  }

  lemma LinesAreMeant(draft: InvoiceDraft)
    requires Computed(draft).Ok?
    ensures LinesMean(draft, Computed(draft).value.lines)
  {
    hide Computed, ComputeLines, ComputeLine, LineMeans;
    ComputedParts(draft);
    LineFacts(draft.lines);
    forall k | 0 <= k < |draft.lines| ensures LineMeans(draft.lines[k], k, Computed(draft).value.lines[k]) {
      LineIsMeant(draft.lines[k], k);
    }
  }

  lemma GroupsDiffer(draft: InvoiceDraft, j: nat, k: nat)
    requires Computed(draft).Ok? && j < k < |Computed(draft).value.taxGroups|
    ensures SortOf(Computed(draft).value.taxGroups[j]) != SortOf(Computed(draft).value.taxGroups[k])
  {
    var lines := Computed(draft).value.lines;
    GroupParts(draft, j);
    GroupParts(draft, k);
    KeysAreDistinct(lines);
    hide Computed, Keys, InGroup;
    assert Keys(lines)[j] != Keys(lines)[k];
  }

  lemma LineHasAGroup(draft: InvoiceDraft, k: nat)
    requires Computed(draft).Ok? && k < |Computed(draft).value.lines|
    ensures HasGroup(Computed(draft).value.lines[k], Computed(draft).value.taxGroups)
  {
    var lines := Computed(draft).value.lines;
    TaxesAreRounded(draft);
    KeysAreDistinct(lines);
    hide Computed, Keys, InGroup, IsNearestCent, Value;
    assert KeyOf(lines[k]) in Keys(lines);
    var j :| 0 <= j < |Keys(lines)| && Keys(lines)[j] == KeyOf(lines[k]);
    GroupParts(draft, j);
    KeyIsOfCategoryAndRate(lines[k], KeyOf(lines[k]));
    assert IsOfGroup(lines[k], Computed(draft).value.taxGroups[j]);
  }

  lemma PrepaidPart(draft: InvoiceDraft)
    requires Computed(draft).Ok?
    ensures PrepaidOf(draft).Ok? && Computed(draft).value.totals.prepaidAmount == PrepaidOf(draft).value
  {}

  lemma TotalsAreMeant(draft: InvoiceDraft)
    requires Computed(draft).Ok?
    ensures TotalsMean(draft, Computed(draft).value)
  {
    var invoice := Computed(draft).value;
    TotalsAddUp(draft);
    PrepaidPart(draft);
    PrepaidIsMeant(draft);
    hide Computed, Total, PrepaidMeans;
    assert Nets(invoice.lines) == Map((line: ComputedLine) => line.netAmount, invoice.lines);
    assert Map(TaxOf, invoice.taxGroups) == Map((group: ComputedTaxGroup) => group.calculatedAmount, invoice.taxGroups);
  }

  lemma GroupsAreMeant(draft: InvoiceDraft)
    requires Computed(draft).Ok?
    ensures GroupsMean(Computed(draft).value.lines, Computed(draft).value.taxGroups)
  {
    hide Computed, GroupMeans, HasGroup;
    var invoice := Computed(draft).value;
    forall k | 0 <= k < |invoice.taxGroups| ensures GroupMeans(invoice.lines, invoice.taxGroups[k]) {
      GroupIsMeant(draft, k);
    }
    forall j, k | 0 <= j < k < |invoice.taxGroups| ensures SortOf(invoice.taxGroups[j]) != SortOf(invoice.taxGroups[k]) {
      GroupsDiffer(draft, j, k);
    }
    forall k | 0 <= k < |invoice.lines| ensures HasGroup(invoice.lines[k], invoice.taxGroups) {
      LineHasAGroup(draft, k);
    }
  }

  /** Whatever draft computes, its invoice says of each amount what the draft says, to the nearest cent. */
  lemma ComputedMeans(draft: InvoiceDraft)
    ensures Computed(draft).Ok? ==> InvoiceMeans(draft, Computed(draft).value)
  {
    hide Computed, LinesMean, GroupsMean, TotalsMean;
    if Computed(draft).Ok? {
      LinesAreMeant(draft);
      GroupsAreMeant(draft);
      TotalsAreMeant(draft);
    }
  }

  // ---------------------------------------------------------------------- the error

  ghost predicate Readable(raw: string) {
    ParseDecimal(Some(raw)).Some?
  }

  ghost predicate LineReadable(line: DraftLine) {
    Readable(line.quantity) && Readable(line.unitPrice) && Readable(line.vatRatePercent)
  }

  /** `error` names the first text that is no decimal: line by line the quantity, the price, the rate, and the prepayment last. */
  ghost predicate IsFirstUnreadable(draft: InvoiceDraft, error: AmountError) {
    && !Readable(error.raw)
    && match error.field
       case Quantity(k) =>
         k < |draft.lines| && error.raw == draft.lines[k].quantity && ReadableBefore(draft.lines, k)
       case UnitPrice(k) =>
         && k < |draft.lines| && error.raw == draft.lines[k].unitPrice && ReadableBefore(draft.lines, k)
         && Readable(draft.lines[k].quantity)
       case VatRate(k) =>
         && k < |draft.lines| && error.raw == draft.lines[k].vatRatePercent && ReadableBefore(draft.lines, k)
         && Readable(draft.lines[k].quantity) && Readable(draft.lines[k].unitPrice)
       case Prepaid =>
         draft.prepaidAmount == Some(error.raw) && error.raw != "" && ReadableBefore(draft.lines, |draft.lines|)
  }

  ghost predicate ReadableBefore(lines: seq<DraftLine>, count: nat)
    requires count <= |lines|
  {
    forall k :: 0 <= k < count ==> LineReadable(lines[k])
  }

  lemma LineComputesIff(line: DraftLine, position: nat)
    ensures ComputeLine(line, position).Ok? <==> LineReadable(line)
  {
    hide ParseDecimal;
  }

  lemma {:induction false} LinesComputeIff(lines: seq<DraftLine>)
    ensures ComputeLines(lines).Ok? <==> ReadableBefore(lines, |lines|)
  {
    hide LineReadable, ComputeLine;
    if lines != [] {
      var n := |lines| - 1;
      LinesComputeIff(lines[..n]);
      LineComputesIff(lines[n], n);
      assert forall k :: 0 <= k < n ==> lines[..n][k] == lines[k];
    }
  }

  lemma LineFailsFirst(draft: InvoiceDraft, k: nat)
    requires k < |draft.lines| && ReadableBefore(draft.lines, k) && ComputeLine(draft.lines[k], k).Err?
    ensures IsFirstUnreadable(draft, ComputeLine(draft.lines[k], k).error)
  {
    hide ParseDecimal, LineReadable;
  }

  lemma LinesFail(lines: seq<DraftLine>)
    requires lines != [] && ComputeLines(lines).Err?
    ensures var n := |lines| - 1;
            if ComputeLines(lines[..n]).Err? then ComputeLines(lines).error == ComputeLines(lines[..n]).error
            else ComputeLine(lines[n], n).Err? && ComputeLines(lines).error == ComputeLine(lines[n], n).error
  {
    hide ComputeLine;
  }

  lemma {:induction false} LineFailureMeans(draft: InvoiceDraft, count: nat)
    requires count <= |draft.lines| && ComputeLines(draft.lines[..count]).Err?
    ensures IsFirstUnreadable(draft, ComputeLines(draft.lines[..count]).error)
  {
    hide ComputeLine, ComputeLines, IsFirstUnreadable, LineReadable;
    if count == 0 {
      assert draft.lines[..0] == [];
      NoLineComputes();
    } else {
      LinesFail(draft.lines[..count]);
      var front := draft.lines[..count - 1];
      assert draft.lines[..count][..count - 1] == front;
      if ComputeLines(front).Err? {
        LineFailureMeans(draft, count - 1);
      } else {
        LinesComputeIff(front);
        assert forall k :: 0 <= k < count - 1 ==> front[k] == draft.lines[k];
        LineFailsFirst(draft, count - 1);
      }
    }
  }

  /** The prepayment is readable, or there is none. */
  ghost predicate PrepaidReadable(draft: InvoiceDraft) {
    draft.prepaidAmount.Some? && draft.prepaidAmount.value != "" ==> Readable(draft.prepaidAmount.value)
  }

  lemma PrepaidFails(draft: InvoiceDraft)
    ensures PrepaidOf(draft).Ok? <==> PrepaidReadable(draft)
    ensures PrepaidOf(draft).Err? && ReadableBefore(draft.lines, |draft.lines|) ==> IsFirstUnreadable(draft, PrepaidOf(draft).error)
  {
    hide ParseDecimal, Rescale, LineReadable;
  }

  lemma ComputedFails(draft: InvoiceDraft)
    ensures Computed(draft).Err? ==>
              Computed(draft).error == if ComputeLines(draft.lines).Err? then ComputeLines(draft.lines).error else PrepaidOf(draft).error
  {
    hide ComputeLines, PrepaidOf, TaxGroups, TotalsOf;
  }

  /** A draft computes exactly when each of its amounts is readable, and is otherwise refused for the first that is not. */
  lemma FailureMeans(draft: InvoiceDraft)
    ensures Computed(draft).Err? ==> IsFirstUnreadable(draft, Computed(draft).error)
    ensures Computed(draft).Ok? <==> (forall k :: 0 <= k < |draft.lines| ==> LineReadable(draft.lines[k])) && PrepaidReadable(draft)
  {
    hide Computed, ComputeLines, PrepaidOf, LineReadable, PrepaidReadable, IsFirstUnreadable;
    assert draft.lines[..|draft.lines|] == draft.lines;
    ComputedParts(draft);
    LinesComputeIff(draft.lines);
    PrepaidFails(draft);
    ComputedFails(draft);
    if ComputeLines(draft.lines).Err? {
      LineFailureMeans(draft, |draft.lines|);
    }
  }

  // ---------------------------------------------------------------------- the method

  /** The loop over the lines: an insertion-ordered map from key to the lines met so far. */
  method GroupLines(lines: seq<ComputedLine>) returns (order: seq<GroupKey>, groups: map<GroupKey, seq<ComputedLine>>)
    ensures order == Keys(lines)
    ensures forall key :: key in groups <==> key in order
    ensures forall key :: key in groups ==> groups[key] == InGroup(lines, key) && groups[key] != []
  {
    order, groups := [], map[];
    for k := 0 to |lines|
      invariant order == Keys(lines[..k])
      invariant forall key :: key in groups <==> key in order
      invariant forall key :: key in groups ==> groups[key] == InGroup(lines[..k], key) && groups[key] != []
    {
      KeysAreDistinct(lines[..k]);
      assert lines[..k + 1][..k] == lines[..k];
      var key := KeyOf(lines[k]);
      if key in groups {
        groups := groups[key := groups[key] + [lines[k]]];
      } else {
        groups := groups[key := [lines[k]]];
        order := order + [key];
      }
    }
    assert lines[..|lines|] == lines;
  }

  /** A group as the map holds it: its first line speaks for category and rate. */
  function TaxGroupFrom(members: seq<ComputedLine>): ComputedTaxGroup
    requires members != []
  {
    var line := members[0];
    var basis := Sum(Nets(members));
    var rate := Rescale(line.vatRatePercent, MONETARY_SCALE);
    ComputedTaxGroup(line.vatCategory, rate, basis, VatOn(basis, rate),
                     if ReasonRequired(line.vatCategory) then FirstReason(members) else None)
  }

  lemma FirstLineSpeaks(lines: seq<ComputedLine>, key: GroupKey)
    requires InGroup(lines, key) != []
    ensures TaxGroupFrom(InGroup(lines, key)) == GroupOf(key, InGroup(lines, key))
  {
    GroupsShareKey(lines, key);
    RescaleHasScale(InGroup(lines, key)[0].vatRatePercent, MONETARY_SCALE);
  }

  method ComputeInvoice(draft: InvoiceDraft) returns (result: Result<ComputedInvoice, AmountError>)
    ensures result == Computed(draft)
    ensures result.Ok? ==> InvoiceMeans(draft, result.value)
    ensures result.Err? ==> IsFirstUnreadable(draft, result.error)
  {
    var computed := ComputeLines(draft.lines);
    if computed.Err? {
      FailureMeans(draft);
      return Err(computed.error);
    }
    var lines := computed.value;
    var order, groups := GroupLines(lines);
    forall k | 0 <= k < |order| ensures order[k] in groups && TaxGroupFrom(groups[order[k]]) == GroupOf(order[k], InGroup(lines, order[k])) {
      FirstLineSpeaks(lines, order[k]);
    }
    var taxGroups := seq(|order|, k requires 0 <= k < |order| && order[k] in groups && groups[order[k]] != [] => TaxGroupFrom(groups[order[k]]));
    assert taxGroups == TaxGroups(lines);
    var prepaid := PrepaidOf(draft);
    if prepaid.Err? {
      FailureMeans(draft);
      return Err(prepaid.error);
    }
    result := Ok(ComputedInvoice(lines, taxGroups, TotalsOf(lines, taxGroups, prepaid.value)));
    ComputedMeans(draft);
  }
}
