/** The independent checker: every total of a document derived again from the document's own parts. */
module Checks {
  import opened Prelude
  import opened Seqs
  import opened Money
  import opened Draft
  import opened Compute
  import opened ComputeLaws
  import opened Invoicing
  import opened CiiTree
  import opened Cii

  datatype Profile = MINIMUM | BASIC_WL | BASIC | EN_16931 | EXTENDED

  /** MINIMUM has no element for a prepayment. */
  predicate CanExpressPrepaidAmount(profile: Option<Profile>) {
    profile != Some(MINIMUM)
  }

  const HUNDRED := Decimal(100, 0)

  datatype ArithmeticCheck = ArithmeticCheck(declared: Option<Decimal>, computed: Option<Decimal>, passed: bool)

  /** A check whose inputs are missing counts as passed. */
  function Check(declared: Option<Decimal>, computed: Option<Decimal>): ArithmeticCheck {
    if declared.None? || computed.None? then ArithmeticCheck(declared, computed, true)
    else ArithmeticCheck(declared, computed, EqualsAtMonetaryScale(declared.value, computed.value))
  }

  datatype ArithmeticReport = ArithmeticReport(
    lineTotal: ArithmeticCheck, taxBasis: ArithmeticCheck, taxTotal: ArithmeticCheck, grandTotal: ArithmeticCheck,
    due: ArithmeticCheck, vatRates: seq<bool>, allPassed: bool)

  /** The amounts that are there. */
  function Present(amounts: seq<Option<Decimal>>): seq<Decimal> {
    if amounts == [] then []
    else
      var front, last := Present(amounts[..|amounts| - 1]), amounts[|amounts| - 1];
      if last.Some? then front + [last.value] else front
  }

  function LineAmount(line: CiiLine): Option<Decimal> {
    line.netAmount
  }

  function TaxAmount(entry: CiiTaxBreakdown): Option<Decimal> {
    entry.calculatedAmount
  }

  function DivideByHundred(d: Decimal): Decimal {
    Decimal(d.value, d.scale + 2)
  }

  function VatRatePasses(entry: CiiTaxBreakdown): bool {
    if entry.basisAmount.None? || entry.ratePercent.None? || entry.calculatedAmount.None? then true
    else
      var product := Multiply(entry.basisAmount.value, entry.ratePercent.value);
      var scaled := Rescale(Decimal(product.value, product.scale + HUNDRED.scale), product.scale);
      var computedTax := Rescale(DivideByHundred(scaled), MONETARY_SCALE);
      EqualsAtMonetaryScale(entry.calculatedAmount.value, computedTax)
  }

  function ComputedLineTotal(invoice: CiiInvoice): Option<Decimal> {
    if invoice.lines != [] then Some(Sum(Present(Map(LineAmount, invoice.lines)))) else None
  }

  function ComputedTaxBasis(totals: CiiTotals): Option<Decimal> {
    var allowance, charge := totals.allowanceTotalAmount.UnwrapOr(ZERO), totals.chargeTotalAmount.UnwrapOr(ZERO);
    if totals.lineTotalAmount.Some? then Some(Add(Subtract(totals.lineTotalAmount.value, allowance), charge)) else None
  }

  function ComputedTaxTotal(invoice: CiiInvoice): Option<Decimal> {
    if invoice.taxBreakdown != [] then Some(Sum(Present(Map(TaxAmount, invoice.taxBreakdown)))) else None
  }

  function ComputedGrandTotal(totals: CiiTotals): Option<Decimal> {
    if totals.taxBasisTotalAmount.Some? && totals.taxTotalAmount.Some?
    then Some(Add(totals.taxBasisTotalAmount.value, totals.taxTotalAmount.value)) else None
  }

  function ComputedDue(totals: CiiTotals, profile: Option<Profile>): Option<Decimal> {
    if CanExpressPrepaidAmount(profile) && totals.grandTotalAmount.Some?
    then Some(Subtract(totals.grandTotalAmount.value, totals.prepaidAmount.UnwrapOr(ZERO))) else None
  }

  function CheckArithmetic(invoice: CiiInvoice, profile: Option<Profile>): ArithmeticReport {
    var totals := invoice.totals;
    var lineTotal := Check(totals.lineTotalAmount, ComputedLineTotal(invoice));
    var taxBasis := Check(totals.taxBasisTotalAmount, ComputedTaxBasis(totals));
    var taxTotal := Check(totals.taxTotalAmount, ComputedTaxTotal(invoice));
    var grandTotal := Check(totals.grandTotalAmount, ComputedGrandTotal(totals));
    var due := Check(totals.duePayableAmount, ComputedDue(totals, profile));
    var vatRates := Map(VatRatePasses, invoice.taxBreakdown);
    ArithmeticReport(lineTotal, taxBasis, taxTotal, grandTotal, due, vatRates,
      && lineTotal.passed && taxBasis.passed && taxTotal.passed && grandTotal.passed && due.passed
      && forall k :: 0 <= k < |vatRates| ==> vatRates[k])
  }

  /** The lines whose amount is exactly the difference between the declared total and the sum of the lines. */
  function SuspectLines(invoice: CiiInvoice): seq<CiiLine> {
    var declared, amounts := invoice.totals.lineTotalAmount, Present(Map(LineAmount, invoice.lines));
    if declared.None? || invoice.lines == [] || amounts == [] then []
    else
      var difference := Subtract(Sum(amounts), declared.value);
      if difference.value == 0 then [] else WithAmount(invoice.lines, AbsOf(difference))
  }

  function AbsOf(d: Decimal): Decimal {
    if d.value < 0 then Negate(d) else d
  }

  function WithAmount(lines: seq<CiiLine>, target: Decimal): seq<CiiLine> {
    if lines == [] then []
    else
      var front, last := WithAmount(lines[..|lines| - 1], target), lines[|lines| - 1];
      if last.netAmount.Some? && EqualsAtMonetaryScale(AbsOf(last.netAmount.value), target) then front + [last] else front
  }

  // ---------------------------------------------------------------------- amounts in cents

  function Cents(value: int): Decimal {
    Decimal(value, MONETARY_SCALE)
  }

  lemma CentsCompare(x: Decimal, y: Decimal)
    ensures EqualsAtMonetaryScale(x, y) <==> Rescale(x, MONETARY_SCALE) == Rescale(y, MONETARY_SCALE)
  {
    RescaleHasScale(x, MONETARY_SCALE);
    RescaleHasScale(y, MONETARY_SCALE);
  }

  lemma CentsStay(value: int)
    ensures Rescale(Cents(value), MONETARY_SCALE) == Cents(value)
  {}

  /** The checker's way of applying a rate is the generator's. */
  lemma CheckerAgreesOnVat(basis: Decimal, rate: Decimal)
    ensures var product := Multiply(basis, rate);
            Rescale(DivideByHundred(Rescale(Decimal(product.value, product.scale + HUNDRED.scale), product.scale)), MONETARY_SCALE)
            == VatOn(basis, rate)
  {}

  lemma {:induction false} PresentAll(amounts: seq<Decimal>)
    ensures Present(Map(a => Some(a), amounts)) == amounts
  {
    if amounts != [] {
      var front := amounts[..|amounts| - 1];
      PresentAll(front);
      assert Map(a => Some(a), amounts)[..|amounts| - 1] == Map(a => Some(a), front);
    }
  }

  // ---------------------------------------------------------------------- what each check says

  /** Two amounts that round to the same cent. */
  ghost predicate SameCents(x: real, y: real) {
    exists cents: int :: IsNearestCent(Decimal(cents, 2), x) && IsNearestCent(Decimal(cents, 2), y)
  }

  lemma EqualIsSameCents(a: Decimal, b: Decimal)
    ensures EqualsAtMonetaryScale(a, b) <==> SameCents(Value(a), Value(b))
  {
    hide EqualsAtMonetaryScale, Rescale, Value, IsNearestCent;
    var x, y := Rescale(a, MONETARY_SCALE), Rescale(b, MONETARY_SCALE);
    CentsCompare(a, b);
    RescaleHasScale(a, MONETARY_SCALE);
    RescaleHasScale(b, MONETARY_SCALE);
    RescaledIsNearestCent(a);
    RescaledIsNearestCent(b);
    if SameCents(Value(a), Value(b)) {
      var cents: int :| IsNearestCent(Decimal(cents, 2), Value(a)) && IsNearestCent(Decimal(cents, 2), Value(b));
      OneNearestCent(x, Decimal(cents, 2), Value(a));
      OneNearestCent(y, Decimal(cents, 2), Value(b));
    } else {
      assert x == Decimal(x.value, 2) && y == Decimal(y.value, 2);
    }
  }

  /** An absent amount counts as nothing. */
  ghost function ValueOrZero(amount: Option<Decimal>): real {
    if amount.Some? then Value(amount.value) else 0.0
  }

  ghost function ValueSum(amounts: seq<Option<Decimal>>): real {
    if amounts == [] then 0.0 else ValueSum(amounts[..|amounts| - 1]) + ValueOrZero(amounts[|amounts| - 1])
  }

  lemma {:induction false} PresentSum(amounts: seq<Option<Decimal>>)
    ensures Value(Sum(Present(amounts))) == ValueSum(amounts)
  {
    hide Value;
    if amounts == [] {
      ZeroIsWorthNothing();
    } else {
      var front, last := amounts[..|amounts| - 1], amounts[|amounts| - 1];
      PresentSum(front);
      if last.Some? {
        SumAppends(Present(front), last.value);
        hide Sum, Add, Present;
        AddIsExact(Sum(Present(front)), last.value);
      }
    }
  }

  lemma ZeroIsWorthNothing()
    ensures Value(ZERO) == 0.0 && Value(Sum([])) == 0.0
  {}

  lemma SumAppends(amounts: seq<Decimal>, last: Decimal)
    ensures Sum(amounts + [last]) == Add(Sum(amounts), last)
  {
    assert (amounts + [last])[..|amounts + [last]| - 1] == amounts;
  }

  /** One check: both sides reported, and passed unless both are there and round to different cents. */
  ghost predicate CheckIs(check: ArithmeticCheck, declared: Option<Decimal>, computed: Option<real>) {
    && check.declared == declared
    && (check.computed.Some? <==> computed.Some?)
    && (computed.Some? ==> Value(check.computed.value) == computed.value)
    && (check.passed <==> (declared.Some? && computed.Some? ==> SameCents(Value(declared.value), computed.value)))
  }

  lemma CheckMeans(declared: Option<Decimal>, computed: Option<Decimal>, exact: Option<real>)
    requires IsWorth(computed, exact)
    ensures CheckIs(Check(declared, computed), declared, exact)
  {
    hide SameCents, Value, EqualsAtMonetaryScale;
    if declared.Some? && computed.Some? {
      EqualIsSameCents(declared.value, computed.value);
    }
  }

  /** The VAT of one rate: basis times rate over a hundred, to the cent, wherever all three are stated. */
  ghost predicate RateHolds(entry: CiiTaxBreakdown) {
    entry.basisAmount.Some? && entry.ratePercent.Some? && entry.calculatedAmount.Some? ==>
      SameCents(Value(entry.calculatedAmount.value), Product(entry.basisAmount.value, entry.ratePercent.value) / 100.0)
  }

  lemma RatePassesIff(entry: CiiTaxBreakdown)
    ensures VatRatePasses(entry) <==> RateHolds(entry)
  {
    if entry.basisAmount.Some? && entry.ratePercent.Some? && entry.calculatedAmount.Some? {
      var basis, rate := entry.basisAmount.value, entry.ratePercent.value;
      CheckerAgreesOnVat(basis, rate);
      VatCompares(entry.calculatedAmount.value, basis, rate);
      hide VatOn, EqualsAtMonetaryScale, Rescale, SameCents, Value, Product;
    }
  }

  lemma VatCompares(declared: Decimal, basis: Decimal, rate: Decimal)
    ensures EqualsAtMonetaryScale(declared, VatOn(basis, rate)) <==> SameCents(Value(declared), Product(basis, rate) / 100.0)
  {
    hide EqualsAtMonetaryScale, Rescale, Value, VatOn, Product, IsNearestCent;
    var x, tax := Rescale(declared, MONETARY_SCALE), VatOn(basis, rate);
    CentsCompare(declared, tax);
    RescaleHasScale(declared, MONETARY_SCALE);
    RescaledIsNearestCent(declared);
    VatIsNearestCent(basis, rate);
    VatIsExactThenRounded(basis, rate);
    AtScale(tax);
    if SameCents(Value(declared), Product(basis, rate) / 100.0) {
      var cents: int :| IsNearestCent(Decimal(cents, 2), Value(declared)) && IsNearestCent(Decimal(cents, 2), Product(basis, rate) / 100.0);
      OneNearestCent(x, Decimal(cents, 2), Value(declared));
      OneNearestCent(tax, Decimal(cents, 2), Product(basis, rate) / 100.0);
    } else {
      assert x == Decimal(x.value, 2) && tax == Decimal(tax.value, 2);
    }
  }

  ghost function LineSum(invoice: CiiInvoice): Option<real> {
    if invoice.lines == [] then None else Some(ValueSum(Map((line: CiiLine) => line.netAmount, invoice.lines)))
  }

  ghost function TaxSum(invoice: CiiInvoice): Option<real> {
    if invoice.taxBreakdown == [] then None
    else Some(ValueSum(Map((entry: CiiTaxBreakdown) => entry.calculatedAmount, invoice.taxBreakdown)))
  }

  ghost function ExpectedBasis(totals: CiiTotals): Option<real> {
    if totals.lineTotalAmount.None? then None
    else Some(Value(totals.lineTotalAmount.value) - ValueOrZero(totals.allowanceTotalAmount) + ValueOrZero(totals.chargeTotalAmount))
  }

  ghost function ExpectedGrandTotal(totals: CiiTotals): Option<real> {
    if totals.taxBasisTotalAmount.None? || totals.taxTotalAmount.None? then None
    else Some(Value(totals.taxBasisTotalAmount.value) + Value(totals.taxTotalAmount.value))
  }

  ghost function ExpectedDue(totals: CiiTotals, profile: Option<Profile>): Option<real> {
    if totals.grandTotalAmount.None? || profile == Some(MINIMUM) then None
    else Some(Value(totals.grandTotalAmount.value) - ValueOrZero(totals.prepaidAmount))
  }

  /** `computed` is there exactly when `exact` is, and is worth it. */
  ghost predicate IsWorth(computed: Option<Decimal>, exact: Option<real>) {
    (computed.Some? <==> exact.Some?) && (computed.Some? ==> Value(computed.value) == exact.value)
  }

  lemma ZeroCounts(amount: Option<Decimal>)
    ensures Value(amount.UnwrapOr(ZERO)) == ValueOrZero(amount)
  {
    ZeroIsWorthNothing();
  }

  lemma LinesAreWorth(invoice: CiiInvoice)
    ensures IsWorth(ComputedLineTotal(invoice), LineSum(invoice))
  {
    assert Map(LineAmount, invoice.lines) == Map((line: CiiLine) => line.netAmount, invoice.lines);
    PresentSum(Map(LineAmount, invoice.lines));
  }

  lemma TaxesAreWorth(invoice: CiiInvoice)
    ensures IsWorth(ComputedTaxTotal(invoice), TaxSum(invoice))
  {
    assert Map(TaxAmount, invoice.taxBreakdown) == Map((entry: CiiTaxBreakdown) => entry.calculatedAmount, invoice.taxBreakdown);
    PresentSum(Map(TaxAmount, invoice.taxBreakdown));
  }

  lemma BasisIsWorth(totals: CiiTotals)
    ensures IsWorth(ComputedTaxBasis(totals), ExpectedBasis(totals))
  {
    if totals.lineTotalAmount.Some? {
      var allowance, charge := totals.allowanceTotalAmount.UnwrapOr(ZERO), totals.chargeTotalAmount.UnwrapOr(ZERO);
      ZeroCounts(totals.allowanceTotalAmount);
      ZeroCounts(totals.chargeTotalAmount);
      AddIsExact(totals.lineTotalAmount.value, allowance);
      AddIsExact(Subtract(totals.lineTotalAmount.value, allowance), charge);
      hide Add, Subtract, Value;
    }
  }

  lemma RestIsWorth(totals: CiiTotals, profile: Option<Profile>)
    ensures IsWorth(ComputedGrandTotal(totals), ExpectedGrandTotal(totals))
    ensures IsWorth(ComputedDue(totals, profile), ExpectedDue(totals, profile))
  {
    if totals.taxBasisTotalAmount.Some? && totals.taxTotalAmount.Some? {
      AddIsExact(totals.taxBasisTotalAmount.value, totals.taxTotalAmount.value);
    }
    ZeroCounts(totals.prepaidAmount);
    if totals.grandTotalAmount.Some? {
      AddIsExact(totals.grandTotalAmount.value, totals.prepaidAmount.UnwrapOr(ZERO));
    }
    hide Add, Subtract, Value;
  }

  /** What the checker reports, check by check, for any document whatsoever and at any number of decimals. */
  ghost predicate ReportMeans(report: ArithmeticReport, invoice: CiiInvoice, profile: Option<Profile>) {
    var totals := invoice.totals;
    && CheckIs(report.lineTotal, totals.lineTotalAmount, LineSum(invoice))
    && CheckIs(report.taxBasis, totals.taxBasisTotalAmount, ExpectedBasis(totals))
    && CheckIs(report.taxTotal, totals.taxTotalAmount, TaxSum(invoice))
    && CheckIs(report.grandTotal, totals.grandTotalAmount, ExpectedGrandTotal(totals))
    && CheckIs(report.due, totals.duePayableAmount, ExpectedDue(totals, profile))
    && |report.vatRates| == |invoice.taxBreakdown|
    && (forall k :: 0 <= k < |invoice.taxBreakdown| ==> (report.vatRates[k] <==> RateHolds(invoice.taxBreakdown[k])))
    && (report.allPassed <==>
          && report.lineTotal.passed && report.taxBasis.passed && report.taxTotal.passed && report.grandTotal.passed
          && report.due.passed && forall k :: 0 <= k < |invoice.taxBreakdown| ==> RateHolds(invoice.taxBreakdown[k]))
  }

  lemma CheckerMeans(invoice: CiiInvoice, profile: Option<Profile>)
    ensures ReportMeans(CheckArithmetic(invoice, profile), invoice, profile)
  {
    var totals := invoice.totals;
    LinesAreWorth(invoice);
    TaxesAreWorth(invoice);
    BasisIsWorth(totals);
    RestIsWorth(totals, profile);
    CheckMeans(totals.lineTotalAmount, ComputedLineTotal(invoice), LineSum(invoice));
    CheckMeans(totals.taxBasisTotalAmount, ComputedTaxBasis(totals), ExpectedBasis(totals));
    CheckMeans(totals.taxTotalAmount, ComputedTaxTotal(invoice), TaxSum(invoice));
    CheckMeans(totals.grandTotalAmount, ComputedGrandTotal(totals), ExpectedGrandTotal(totals));
    CheckMeans(totals.duePayableAmount, ComputedDue(totals, profile), ExpectedDue(totals, profile));
    forall k | 0 <= k < |invoice.taxBreakdown|
      ensures VatRatePasses(invoice.taxBreakdown[k]) <==> RateHolds(invoice.taxBreakdown[k])
    {
      RatePassesIff(invoice.taxBreakdown[k]);
    }
    hide CheckIs, Check, ComputedLineTotal, ComputedTaxTotal, ComputedTaxBasis, ComputedGrandTotal, ComputedDue, RateHolds, VatRatePasses,
         LineSum, TaxSum, ExpectedBasis, ExpectedGrandTotal, ExpectedDue;
  }

  // ---------------------------------------------------------------------- what a generated document says

  /** A document whose amounts are all there, in cents, and hang together. */
  ghost predicate Coherent(invoice: CiiInvoice, nets: seq<Decimal>, taxes: seq<Decimal>, prepaid: int) {
    var totals := invoice.totals;
    var basis, tax := Total(nets), Total(taxes);
    && Map(LineAmount, invoice.lines) == Map(a => Some(a), nets) && AllMonetary(nets)
    && Map(TaxAmount, invoice.taxBreakdown) == Map(a => Some(a), taxes) && AllMonetary(taxes)
    && (forall k :: 0 <= k < |invoice.taxBreakdown| ==> EntryCoheres(invoice.taxBreakdown[k]))
    && totals == CiiTotals(Some(Cents(basis)), None, None, Some(Cents(basis)), Some(Cents(tax)), Some(Cents(basis + tax)),
                           if prepaid == 0 then None else Some(Cents(prepaid)), Some(Cents(basis + tax - prepaid)))
  }

  predicate EntryCoheres(entry: CiiTaxBreakdown) {
    && entry.basisAmount.Some? && entry.ratePercent.Some?
    && entry.calculatedAmount == Some(VatOn(entry.basisAmount.value, entry.ratePercent.value))
  }

  lemma CoherentEntryPasses(entry: CiiTaxBreakdown)
    requires EntryCoheres(entry)
    ensures VatRatePasses(entry)
  {
    CheckerAgreesOnVat(entry.basisAmount.value, entry.ratePercent.value);
    CentsCompare(entry.calculatedAmount.value, VatOn(entry.basisAmount.value, entry.ratePercent.value));
    hide VatOn, EqualsAtMonetaryScale, Rescale;
  }

  /** What the five checks compare, on a coherent document. */
  lemma CoherentSides(invoice: CiiInvoice, nets: seq<Decimal>, taxes: seq<Decimal>, prepaid: int)
    requires Coherent(invoice, nets, taxes, prepaid)
    ensures Sum(Present(Map(LineAmount, invoice.lines))) == Cents(Total(nets))
    ensures Sum(Present(Map(TaxAmount, invoice.taxBreakdown))) == Cents(Total(taxes))
  {
    PresentAll(nets);
    PresentAll(taxes);
    MonetarySum(nets);
    MonetarySum(taxes);
  }

  lemma CoherentPasses(invoice: CiiInvoice, nets: seq<Decimal>, taxes: seq<Decimal>, prepaid: int, profile: Option<Profile>)
    requires Coherent(invoice, nets, taxes, prepaid)
    ensures CheckArithmetic(invoice, profile).allPassed
  {
    hide Sum, Present, Total, Map, VatRatePasses, CheckArithmetic, Coherent;
    var basis, tax := Total(nets), Total(taxes);
    RatesPass(invoice, nets, taxes, prepaid);
    CoherentSides(invoice, nets, taxes, prepaid);
    CoherentShape(invoice, nets, taxes, prepaid);
    ChecksInCents(invoice, profile, basis, tax, basis, basis, tax, 0, 0, basis + tax, prepaid, basis + tax - prepaid);
  }

  function AmountsOf(groups: seq<ComputedTaxGroup>): seq<Decimal> {
    Map(TaxOf, groups)
  }

  lemma GroupCoheres(draft: InvoiceDraft, k: nat)
    requires Computed(draft).Ok? && k < |Computed(draft).value.taxGroups|
    ensures var group := Computed(draft).value.taxGroups[k];
            && GroupSaid(group).basisAmount == Some(group.basisAmount)
            && GroupSaid(group).calculatedAmount == Some(group.calculatedAmount)
            && GroupSaid(group).ratePercent == Some(group.ratePercent)
            && EntryCoheres(GroupSaid(group))
  {
    GroupsAreMonetary(draft, k);
    TaxesAreRounded(draft);
    hide Computed, VatOn, Said, GroupOf, Keys, InGroup;
  }

  lemma GeneratedLines(draft: InvoiceDraft)
    requires Computed(draft).Ok?
    ensures var lines := Computed(draft).value.lines;
            Map(LineAmount, Map(LineSaid, lines)) == Map(a => Some(a), Nets(lines)) && AllMonetary(Nets(lines))
  {
    LinesAreMonetary(draft);
    NetsAreRounded(draft);
    var lines := Computed(draft).value.lines;
    hide Computed, Said, Rescale;
    forall k | 0 <= k < |lines| ensures LineAmount(LineSaid(lines[k])) == Some(lines[k].netAmount) {
      assert IsRoundedNet(lines[k]);
      AtScale(lines[k].netAmount);
    }
    hide LineSaid;
  }

  lemma AtScale(d: Decimal)
    requires d.scale == MONETARY_SCALE
    ensures Rescale(d, MONETARY_SCALE) == d
  {}

  lemma GeneratedEntries(draft: InvoiceDraft)
    requires Computed(draft).Ok?
    ensures var groups := Computed(draft).value.taxGroups;
            && Map(TaxAmount, Map(GroupSaid, groups)) == Map(a => Some(a), AmountsOf(groups)) && AllMonetary(AmountsOf(groups))
            && forall k :: 0 <= k < |groups| ==> EntryCoheres(GroupSaid(groups[k]))
  {
    LinesAreMonetary(draft);
    var groups := Computed(draft).value.taxGroups;
    forall k | 0 <= k < |groups|
      ensures EntryCoheres(GroupSaid(groups[k])) && TaxAmount(GroupSaid(groups[k])) == Some(TaxOf(groups[k]))
    {
      GroupCoheres(draft, k);
    }
    hide Computed, EntryCoheres, GroupSaid;
  }

  lemma GeneratedTotals(draft: InvoiceDraft)
    requires Computed(draft).Ok?
    ensures var invoice := Computed(draft).value;
            var basis, tax, prepaid := Total(Nets(invoice.lines)), Total(AmountsOf(invoice.taxGroups)), invoice.totals.prepaidAmount.value;
            TotalsSaid(invoice.totals)
            == CiiTotals(Some(Cents(basis)), None, None, Some(Cents(basis)), Some(Cents(tax)), Some(Cents(basis + tax)),
                         if prepaid == 0 then None else Some(Cents(prepaid)), Some(Cents(basis + tax - prepaid)))
  {
    hide *;
    var invoice := Computed(draft).value;
    AmountsAre(invoice.taxGroups);
    TotalsAddUp(draft);
    TotalsInCents(invoice.totals, Total(Nets(invoice.lines)), Total(AmountsOf(invoice.taxGroups)));
  }

  lemma AmountsAre(groups: seq<ComputedTaxGroup>)
    ensures AmountsOf(groups) == Map(TaxOf, groups)
  {}

  lemma TotalsInCents(totals: ComputedTotals, basis: int, tax: int)
    requires totals.lineTotalAmount == totals.taxBasisTotalAmount == Decimal(basis, MONETARY_SCALE)
    requires totals.taxTotalAmount == Decimal(tax, MONETARY_SCALE) && totals.grandTotalAmount == Decimal(basis + tax, MONETARY_SCALE)
    requires totals.prepaidAmount.scale == MONETARY_SCALE
    requires totals.duePayableAmount == Decimal(basis + tax - totals.prepaidAmount.value, MONETARY_SCALE)
    ensures TotalsSaid(totals)
            == CiiTotals(Some(Cents(basis)), None, None, Some(Cents(basis)), Some(Cents(tax)), Some(Cents(basis + tax)),
                         if totals.prepaidAmount.value == 0 then None else Some(Cents(totals.prepaidAmount.value)),
                         Some(Cents(basis + tax - totals.prepaidAmount.value)))
  {}

  /** What is read back from a generated document is coherent. */
  lemma GeneratedIsCoherent(draft: InvoiceDraft)
    requires Computed(draft).Ok?
    ensures var invoice := Computed(draft).value;
            Coherent(InvoiceSaid(invoice), Nets(invoice.lines), AmountsOf(invoice.taxGroups), invoice.totals.prepaidAmount.value)
  {
    hide Computed, EntryCoheres, Total, GroupSaid, LineSaid, TotalsSaid, Nets, AmountsOf, AllMonetary;
    GeneratedLines(draft);
    GeneratedEntries(draft);
    GeneratedTotals(draft);
  }

  /**
   Generation and checking agree: whatever draft computes, its document, written out and read back,
   passes every check of the independent checker, under every profile.
   */
  lemma GeneratedDocumentPasses(draft: InvoiceDraft, s: Surroundings, profile: Option<Profile>)
    requires Computed(draft).Ok?
    ensures CheckArithmetic(ParseTransaction(Some(Seen(TransactionNode(Computed(draft).value, s)))), profile).allPassed
  {
    hide *;
    var invoice := Computed(draft).value;
    DocumentReadsBack(invoice, s);
    GeneratedIsCoherent(draft);
    CoherentPasses(InvoiceSaid(invoice), Nets(invoice.lines), AmountsOf(invoice.taxGroups), invoice.totals.prepaidAmount.value, profile);
  }

  // ---------------------------------------------------------------------- what the checker catches

  /** One amount of a document replaced by another. */
  datatype Tampering =
    | LineNet(line: nat) | GroupTax(group: nat)
    | LineTotal | AllowanceTotal | ChargeTotal | TaxBasisTotal | TaxTotal | GrandTotal | PrepaidTotal | DueTotal

  predicate CanTamper(invoice: CiiInvoice, t: Tampering) {
    match t
    case LineNet(k) => k < |invoice.lines|
    case GroupTax(k) => k < |invoice.taxBreakdown|
    case _ => true
  }

  function AmountAt(invoice: CiiInvoice, t: Tampering): Option<Decimal>
    requires CanTamper(invoice, t)
  {
    match t
    case LineNet(k) => invoice.lines[k].netAmount
    case GroupTax(k) => invoice.taxBreakdown[k].calculatedAmount
    case LineTotal => invoice.totals.lineTotalAmount
    case AllowanceTotal => invoice.totals.allowanceTotalAmount
    case ChargeTotal => invoice.totals.chargeTotalAmount
    case TaxBasisTotal => invoice.totals.taxBasisTotalAmount
    case TaxTotal => invoice.totals.taxTotalAmount
    case GrandTotal => invoice.totals.grandTotalAmount
    case PrepaidTotal => invoice.totals.prepaidAmount
    case DueTotal => invoice.totals.duePayableAmount
  }

  function Tampered(invoice: CiiInvoice, t: Tampering, amount: Decimal): CiiInvoice
    requires CanTamper(invoice, t)
  {
    match t
    case LineNet(k) => invoice.(lines := invoice.lines[k := invoice.lines[k].(netAmount := Some(amount))])
    case GroupTax(k) => invoice.(taxBreakdown := invoice.taxBreakdown[k := invoice.taxBreakdown[k].(calculatedAmount := Some(amount))])
    case LineTotal => invoice.(totals := invoice.totals.(lineTotalAmount := Some(amount)))
    case AllowanceTotal => invoice.(totals := invoice.totals.(allowanceTotalAmount := Some(amount)))
    case ChargeTotal => invoice.(totals := invoice.totals.(chargeTotalAmount := Some(amount)))
    case TaxBasisTotal => invoice.(totals := invoice.totals.(taxBasisTotalAmount := Some(amount)))
    case TaxTotal => invoice.(totals := invoice.totals.(taxTotalAmount := Some(amount)))
    case GrandTotal => invoice.(totals := invoice.totals.(grandTotalAmount := Some(amount)))
    case PrepaidTotal => invoice.(totals := invoice.totals.(prepaidAmount := Some(amount)))
    case DueTotal => invoice.(totals := invoice.totals.(duePayableAmount := Some(amount)))
  }

  lemma CheckCompares(x: int, y: int)
    ensures Check(Some(Cents(x)), Some(Cents(y))).passed <==> x == y
  {
    CentsCompare(Cents(x), Cents(y));
  }

  /** An amount in cents, an absent one counting as zero. */
  predicate IsCents(amount: Option<Decimal>, cents: int) {
    amount == Some(Cents(cents)) || (amount == None && cents == 0)
  }

  lemma CentsUnwrapped(amount: Option<Decimal>, cents: int)
    requires IsCents(amount, cents)
    ensures Rescale(amount.UnwrapOr(ZERO), MONETARY_SCALE) == Cents(cents) && amount.UnwrapOr(ZERO).scale <= MONETARY_SCALE
  {
    assert Rescale(ZERO, MONETARY_SCALE) == Cents(0);
  }

  lemma CentsApplied(value: int, amount: Option<Decimal>, cents: int)
    requires IsCents(amount, cents)
    ensures Add(Cents(value), amount.UnwrapOr(ZERO)) == Cents(value + cents)
    ensures Subtract(Cents(value), amount.UnwrapOr(ZERO)) == Cents(value - cents)
  {
    CentsUnwrapped(amount, cents);
  }

  /** Each check in terms of the amounts of a document, all of them in cents: one equation per rule. */
  lemma ChecksInCents(invoice: CiiInvoice, profile: Option<Profile>, lines: int, taxes: int, lineTotal: int, basis: int, tax: int,
                      allowance: int, charge: int, grand: int, prepaid: int, due: int)
    requires Sum(Present(Map(LineAmount, invoice.lines))) == Cents(lines)
    requires Sum(Present(Map(TaxAmount, invoice.taxBreakdown))) == Cents(taxes)
    requires var totals := invoice.totals;
      && totals.lineTotalAmount == Some(Cents(lineTotal)) && totals.taxBasisTotalAmount == Some(Cents(basis))
      && totals.taxTotalAmount == Some(Cents(tax)) && totals.grandTotalAmount == Some(Cents(grand))
      && IsCents(totals.allowanceTotalAmount, allowance) && IsCents(totals.chargeTotalAmount, charge)
      && IsCents(totals.prepaidAmount, prepaid) && totals.duePayableAmount == Some(Cents(due))
    ensures CheckArithmetic(invoice, profile).allPassed <==>
              && (invoice.lines != [] ==> lineTotal == lines) && basis == lineTotal - allowance + charge
              && (invoice.taxBreakdown != [] ==> tax == taxes) && grand == basis + tax
              && (profile != Some(MINIMUM) ==> due == grand - prepaid)
              && forall k :: 0 <= k < |invoice.taxBreakdown| ==> VatRatePasses(invoice.taxBreakdown[k])
  {
    CentsApplied(lineTotal, invoice.totals.allowanceTotalAmount, allowance);
    CentsApplied(lineTotal - allowance, invoice.totals.chargeTotalAmount, charge);
    CentsApplied(grand, invoice.totals.prepaidAmount, prepaid);
    CentsAdd(basis, tax);
    CheckCompares(lineTotal, lines);
    CheckCompares(basis, lineTotal - allowance + charge);
    CheckCompares(tax, taxes);
    CheckCompares(grand, basis + tax);
    CheckCompares(due, grand - prepaid);
    hide Sum, Present, Add, Subtract, Check, VatRatePasses;
  }

  lemma {:induction false} PresentChanges(amounts: seq<Decimal>, k: nat, x: int)
    requires k < |amounts| && AllMonetary(amounts)
    ensures Sum(Present(Map(a => Some(a), amounts[k := Cents(x)]))) == Cents(Total(amounts) - amounts[k].value + x)
  {
    PresentAll(amounts[k := Cents(x)]);
    MonetarySum(amounts[k := Cents(x)]);
    TotalWithout(amounts, k);
    TotalWithout(amounts[k := Cents(x)], k);
    assert Without(amounts[k := Cents(x)], k) == Without(amounts, k);
  }

  lemma {:induction false} TamperedLineSum(invoice: CiiInvoice, nets: seq<Decimal>, k: nat, x: int)
    requires Map(LineAmount, invoice.lines) == Map(a => Some(a), nets) && AllMonetary(nets)
    requires k < |nets| == |invoice.lines|
    ensures var tampered := Tampered(invoice, LineNet(k), Cents(x));
            && tampered.totals == invoice.totals && tampered.taxBreakdown == invoice.taxBreakdown && tampered.lines != []
            && Sum(Present(Map(LineAmount, tampered.lines))) == Cents(Total(nets) - nets[k].value + x)
  {
    var tampered := Tampered(invoice, LineNet(k), Cents(x));
    PresentChanges(nets, k, x);
    assert forall j :: 0 <= j < |nets| ==> Map(LineAmount, invoice.lines)[j] == Some(nets[j]);
    assert Map(LineAmount, tampered.lines) == Map(a => Some(a), nets[k := Cents(x)]);
  }

  lemma WrongLineFails(invoice: CiiInvoice, nets: seq<Decimal>, taxes: seq<Decimal>, prepaid: int, k: nat, x: int, profile: Option<Profile>)
    requires Coherent(invoice, nets, taxes, prepaid) && k < |nets| && nets[k] != Cents(x) && CanTamper(invoice, LineNet(k))
    ensures !CheckArithmetic(Tampered(invoice, LineNet(k), Cents(x)), profile).allPassed
  {
    hide Sum, Present, Total, EntryCoheres, Map, VatRatePasses, CheckArithmetic, Tampered;
    var basis, tax := Total(nets), Total(taxes);
    CoherentSides(invoice, nets, taxes, prepaid);
    CoherentShape(invoice, nets, taxes, prepaid);
    TamperedLineSum(invoice, nets, k, x);
    ChecksInCents(Tampered(invoice, LineNet(k), Cents(x)), profile, basis - nets[k].value + x, tax, basis, basis, tax, 0, 0,
                  basis + tax, prepaid, basis + tax - prepaid);
  }

  lemma TamperedTotals(invoice: CiiInvoice, t: Tampering, x: int)
    requires !t.LineNet? && !t.GroupTax?
    ensures var tampered := Tampered(invoice, t, Cents(x));
            && tampered.lines == invoice.lines && tampered.taxBreakdown == invoice.taxBreakdown
            && tampered.totals.lineTotalAmount == (if t.LineTotal? then Some(Cents(x)) else invoice.totals.lineTotalAmount)
            && tampered.totals.allowanceTotalAmount == (if t.AllowanceTotal? then Some(Cents(x)) else invoice.totals.allowanceTotalAmount)
            && tampered.totals.chargeTotalAmount == (if t.ChargeTotal? then Some(Cents(x)) else invoice.totals.chargeTotalAmount)
            && tampered.totals.taxBasisTotalAmount == (if t.TaxBasisTotal? then Some(Cents(x)) else invoice.totals.taxBasisTotalAmount)
            && tampered.totals.taxTotalAmount == (if t.TaxTotal? then Some(Cents(x)) else invoice.totals.taxTotalAmount)
            && tampered.totals.grandTotalAmount == (if t.GrandTotal? then Some(Cents(x)) else invoice.totals.grandTotalAmount)
            && tampered.totals.prepaidAmount == (if t.PrepaidTotal? then Some(Cents(x)) else invoice.totals.prepaidAmount)
            && tampered.totals.duePayableAmount == (if t.DueTotal? then Some(Cents(x)) else invoice.totals.duePayableAmount)
  {}

  lemma WrongTotalFails(invoice: CiiInvoice, nets: seq<Decimal>, taxes: seq<Decimal>, prepaid: int,
                        t: Tampering, x: int, profile: Option<Profile>)
    requires Coherent(invoice, nets, taxes, prepaid)
    requires !t.LineNet? && !t.GroupTax? && AmountAt(invoice, t).UnwrapOr(Cents(0)) != Cents(x)
    ensures CheckArithmetic(Tampered(invoice, t, Cents(x)), profile).allPassed
            <==> profile == Some(MINIMUM) && (t == PrepaidTotal || t == DueTotal)
  {
    hide Sum, Present, Total, Map, VatRatePasses, CheckArithmetic, Coherent, Tampered;
    var basis, tax := Total(nets), Total(taxes);
    var grand, due := basis + tax, basis + tax - prepaid;
    RatesPass(invoice, nets, taxes, prepaid);
    CoherentSides(invoice, nets, taxes, prepaid);
    CoherentShape(invoice, nets, taxes, prepaid);
    TamperedTotals(invoice, t, x);
    ChecksInCents(Tampered(invoice, t, Cents(x)), profile, basis, tax,
                  if t.LineTotal? then x else basis, if t.TaxBasisTotal? then x else basis, if t.TaxTotal? then x else tax,
                  if t.AllowanceTotal? then x else 0, if t.ChargeTotal? then x else 0,
                  if t.GrandTotal? then x else grand, if t.PrepaidTotal? then x else prepaid, if t.DueTotal? then x else due);
  }

  lemma RatesPass(invoice: CiiInvoice, nets: seq<Decimal>, taxes: seq<Decimal>, prepaid: int)
    requires Coherent(invoice, nets, taxes, prepaid)
    ensures forall k :: 0 <= k < |invoice.taxBreakdown| ==> VatRatePasses(invoice.taxBreakdown[k])
  {
    forall k | 0 <= k < |invoice.taxBreakdown| ensures VatRatePasses(invoice.taxBreakdown[k]) {
      CoherentEntryPasses(invoice.taxBreakdown[k]);
    }
  }

  lemma CoherentShape(invoice: CiiInvoice, nets: seq<Decimal>, taxes: seq<Decimal>, prepaid: int)
    requires Coherent(invoice, nets, taxes, prepaid)
    ensures |invoice.lines| == |nets| && |invoice.taxBreakdown| == |taxes|
    ensures var basis, tax := Total(nets), Total(taxes);
            invoice.totals == CiiTotals(Some(Cents(basis)), None, None, Some(Cents(basis)), Some(Cents(tax)), Some(Cents(basis + tax)),
                                        if prepaid == 0 then None else Some(Cents(prepaid)), Some(Cents(basis + tax - prepaid)))
  {
    assert |invoice.lines| == |Map(LineAmount, invoice.lines)| == |nets|;
    assert |invoice.taxBreakdown| == |Map(TaxAmount, invoice.taxBreakdown)| == |taxes|;
  }

  lemma WrongTaxFails(invoice: CiiInvoice, nets: seq<Decimal>, taxes: seq<Decimal>, prepaid: int, k: nat, x: int, profile: Option<Profile>)
    requires Coherent(invoice, nets, taxes, prepaid) && CanTamper(invoice, GroupTax(k))
    requires invoice.taxBreakdown[k].calculatedAmount != Some(Cents(x))
    ensures !CheckArithmetic(Tampered(invoice, GroupTax(k), Cents(x)), profile).allPassed
  {
    var entry := invoice.taxBreakdown[k];
    assert EntryCoheres(entry);
    assert AllMonetary(taxes) && Map(TaxAmount, invoice.taxBreakdown)[k] == Some(taxes[k]);
    var wrong := entry.(calculatedAmount := Some(Cents(x)));
    CheckerAgreesOnVat(entry.basisAmount.value, entry.ratePercent.value);
    CentsCompare(Cents(x), taxes[k]);
    CentsStay(taxes[k].value);
    CentsStay(x);
    assert !VatRatePasses(wrong);
    hide VatRatePasses;
    assert Tampered(invoice, GroupTax(k), Cents(x)).taxBreakdown[k] == wrong;
  }

  /**
   The checker misses nothing of the kind it looks for: changing any one line amount, group tax or
   total of a generated document to another amount in cents makes it fail, the prepayment and the
   amount due excepted under the one profile that has no prepayment to state.
   */
  lemma TamperingIsCaught(draft: InvoiceDraft, t: Tampering, x: int, profile: Option<Profile>)
    requires Computed(draft).Ok? && CanTamper(InvoiceSaid(Computed(draft).value), t)
    requires AmountAt(InvoiceSaid(Computed(draft).value), t).UnwrapOr(Cents(0)) != Cents(x)
    ensures CheckArithmetic(Tampered(InvoiceSaid(Computed(draft).value), t, Cents(x)), profile).allPassed
            <==> profile == Some(MINIMUM) && (t == PrepaidTotal || t == DueTotal)
  {
    var invoice := Computed(draft).value;
    var read, nets, taxes, prepaid := InvoiceSaid(invoice), Nets(invoice.lines), AmountsOf(invoice.taxGroups), invoice.totals.prepaidAmount.value;
    GeneratedIsCoherent(draft);
    hide Computed, CheckArithmetic, Tampered;
    match t
    case LineNet(k) =>
      assert Map(LineAmount, read.lines)[k] == Some(nets[k]);
      WrongLineFails(read, nets, taxes, prepaid, k, x, profile);
    case GroupTax(k) =>
      assert Map(TaxAmount, read.taxBreakdown)[k] == Some(taxes[k]);
      WrongTaxFails(read, nets, taxes, prepaid, k, x, profile);
    case _ =>
      WrongTotalFails(read, nets, taxes, prepaid, t, x, profile);
  }

  lemma {:induction false} WithAmountKeeps(lines: seq<CiiLine>, target: Decimal, k: nat)
    requires k < |lines| && lines[k].netAmount.Some? && EqualsAtMonetaryScale(AbsOf(lines[k].netAmount.value), target)
    ensures lines[k] in WithAmount(lines, target)
  {
    if k < |lines| - 1 {
      WithAmountKeeps(lines[..|lines| - 1], target, k);
    }
  }

  lemma {:induction false} WithAmountHas(lines: seq<CiiLine>, target: Decimal, line: CiiLine)
    ensures line in WithAmount(lines, target) <==>
              line in lines && line.netAmount.Some? && EqualsAtMonetaryScale(AbsOf(line.netAmount.value), target)
  {
    hide EqualsAtMonetaryScale;
    if lines != [] {
      var front := lines[..|lines| - 1];
      assert lines == front + [lines[|lines| - 1]];
      WithAmountHas(front, target, line);
    }
  }

  lemma AbsIsExact(d: Decimal)
    ensures Value(AbsOf(d)) == RealAbs(Value(d))
  {
    RatioAbs(d.value, Pow10(d.scale));
  }

  lemma {:induction false} PresentHas(lines: seq<CiiLine>, k: nat)
    requires k < |lines| && lines[k].netAmount.Some?
    ensures Present(Map(LineAmount, lines)) != []
  {
    var front := lines[..|lines| - 1];
    assert Map(LineAmount, lines)[..|lines| - 1] == Map(LineAmount, front);
    if k < |front| {
      PresentHas(front, k);
    }
  }

  lemma WorthNothing(d: Decimal)
    ensures d.value == 0 <==> Value(d) == 0.0
  {
    RatioOrders(d.value, 0, Pow10(d.scale));
    RatioOrders(0, d.value, Pow10(d.scale));
    assert Ratio(0, Pow10(d.scale)) == 0.0;
  }

  /** What a suspect's own amount has to be: the gap between the lines and the declared total, to the cent. */
  ghost predicate ExplainsGap(net: Decimal, sum: real, declared: Decimal) {
    sum != Value(declared) && SameCents(RealAbs(Value(net)), RealAbs(sum - Value(declared)))
  }

  /** A line is suspected exactly when its amount alone accounts for the gap. */
  lemma SuspectIff(invoice: CiiInvoice, line: CiiLine)
    ensures var declared := invoice.totals.lineTotalAmount;
            line in SuspectLines(invoice) <==>
              && line in invoice.lines && line.netAmount.Some? && declared.Some?
              && ExplainsGap(line.netAmount.value, ValueSum(Map((l: CiiLine) => l.netAmount, invoice.lines)), declared.value)
  {
    var declared, amounts := invoice.totals.lineTotalAmount, Present(Map(LineAmount, invoice.lines));
    if line in invoice.lines && line.netAmount.Some? && declared.Some? {
      var k :| 0 <= k < |invoice.lines| && invoice.lines[k] == line;
      PresentHas(invoice.lines, k);
      var difference := Subtract(Sum(amounts), declared.value);
      LinesAreWorth(invoice);
      AddIsExact(Sum(amounts), declared.value);
      WorthNothing(difference);
      AbsIsExact(difference);
      AbsIsExact(line.netAmount.value);
      EqualIsSameCents(AbsOf(line.netAmount.value), AbsOf(difference));
      WithAmountHas(invoice.lines, AbsOf(difference), line);
      hide Sum, Present, Subtract, EqualsAtMonetaryScale, SameCents, Value, AbsOf, WithAmount, RealAbs, Map;
    } else if declared.Some? {
      WithAmountHas(invoice.lines, AbsOf(Subtract(Sum(amounts), declared.value)), line);
      hide Sum, Present, Subtract, EqualsAtMonetaryScale, AbsOf, WithAmount, Map;
    }
  }

  /** Which lines are suspected of a wrong line total. */
  lemma SuspectsAre(invoice: CiiInvoice, nets: seq<Decimal>, declared: int)
    requires Present(Map(LineAmount, invoice.lines)) == nets && nets != [] && invoice.lines != []
    requires Sum(nets) == Cents(Total(nets)) && invoice.totals.lineTotalAmount == Some(Cents(declared)) && Total(nets) != declared
    ensures SuspectLines(invoice) == WithAmount(invoice.lines, AbsOf(Cents(Total(nets) - declared)))
  {
    CentsAdd(Total(nets), declared);
    hide Present, Sum, Total, Map, WithAmount;
  }

  lemma {:induction false} MiscountIsSuspect(invoice: CiiInvoice, nets: seq<Decimal>, k: nat, declared: int)
    requires Map(LineAmount, invoice.lines) == Map(a => Some(a), nets) && AllMonetary(nets)
    requires k < |nets| && nets[k].value != 0 && |invoice.lines| == |nets|
    requires declared == Total(nets) + nets[k].value || declared == Total(nets) - nets[k].value
    ensures invoice.lines[k] in SuspectLines(Tampered(invoice, LineTotal, Cents(declared)))
  {
    PresentAll(nets);
    MonetarySum(nets);
    assert Map(LineAmount, invoice.lines)[k] == Some(nets[k]);
    assert nets[k] == Cents(nets[k].value);
    hide Present, Sum, Total, SuspectLines, WithAmount, Map;
    var tampered := Tampered(invoice, LineTotal, Cents(declared));
    var target := AbsOf(Cents(Total(nets) - declared));
    SuspectsAre(tampered, nets, declared);
    CentsCompare(AbsOf(nets[k]), target);
    WithAmountKeeps(tampered.lines, target, k);
  }

  /** When a declared line total left one line out, or counted one twice, that line is among the suspects. */
  lemma {:induction false} MiscountedLineIsSuspect(draft: InvoiceDraft, k: nat, twice: bool)
    requires Computed(draft).Ok? && k < |Computed(draft).value.lines|
    requires Computed(draft).value.lines[k].netAmount.value != 0
    ensures var invoice := Computed(draft).value;
            var net, total := invoice.lines[k].netAmount.value, invoice.totals.lineTotalAmount.value;
            var declared := Cents(if twice then total + net else total - net);
            LineSaid(invoice.lines[k]) in SuspectLines(Tampered(InvoiceSaid(invoice), LineTotal, declared))
  {
    hide Computed, SuspectLines, Tampered, Total, LineSaid;
    var invoice := Computed(draft).value;
    GeneratedLines(draft);
    TotalsAddUp(draft);
    var net, total := invoice.lines[k].netAmount.value, invoice.totals.lineTotalAmount.value;
    MiscountIsSuspect(InvoiceSaid(invoice), Nets(invoice.lines), k, if twice then total + net else total - net);
  }
}
