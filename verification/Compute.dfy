/** Every total of an invoice derived from its lines. */
module Compute {
  import opened Prelude
  import opened Seqs
  import opened Money
  import opened DecimalText
  import opened Draft

  datatype AmountField = Quantity(line: nat) | UnitPrice(line: nat) | VatRate(line: nat) | Prepaid
  datatype AmountError = Unreadable(field: AmountField, raw: string)

  datatype ComputedLine = ComputedLine(
    source: DraftLine, lineId: string, quantity: Decimal, unitPrice: Decimal, netAmount: Decimal,
    vatCategory: VatCategory, vatRatePercent: Decimal)

  datatype ComputedTaxGroup = ComputedTaxGroup(
    categoryCode: VatCategory, ratePercent: Decimal, basisAmount: Decimal, calculatedAmount: Decimal,
    exemptionReason: Option<string>)

  datatype ComputedTotals = ComputedTotals(
    lineTotalAmount: Decimal, taxBasisTotalAmount: Decimal, taxTotalAmount: Decimal, grandTotalAmount: Decimal,
    prepaidAmount: Decimal, duePayableAmount: Decimal)

  datatype ComputedInvoice = ComputedInvoice(lines: seq<ComputedLine>, taxGroups: seq<ComputedTaxGroup>, totals: ComputedTotals)

  // ---------------------------------------------------------------------- lines

  function Required(raw: string, field: AmountField): Result<Decimal, AmountError> {
    match ParseDecimal(Some(raw))
    case None => Err(Unreadable(field, raw))
    case Some(d) => Ok(d)
  }

  function ComputeLine(line: DraftLine, index: nat): Result<ComputedLine, AmountError> {
    var quantity :- Required(line.quantity, Quantity(index));
    var unitPrice :- Required(line.unitPrice, UnitPrice(index));
    var rate :- Required(line.vatRatePercent, VatRate(index));
    var net := Rescale(Multiply(quantity, unitPrice), MONETARY_SCALE);
    Ok(ComputedLine(line, DigitsOf(index + 1), quantity, unitPrice, net, line.vatCategory, rate))
  }

  /** All lines, or the error of the first that has one. */
  function ComputeLines(lines: seq<DraftLine>): Result<seq<ComputedLine>, AmountError> {
    if lines == [] then Ok([])
    else
      var front :- ComputeLines(lines[..|lines| - 1]);
      var last :- ComputeLine(lines[|lines| - 1], |lines| - 1);
      Ok(front + [last])
  }

  // ---------------------------------------------------------------------- groups

  /** What a line is grouped by: its category and its rate to two decimals. */
  datatype GroupKey = GroupKey(category: VatCategory, rate: int)

  function KeyOf(line: ComputedLine): GroupKey {
    GroupKey(line.vatCategory, Rescale(line.vatRatePercent, MONETARY_SCALE).value)
  }

  /** The keys of `lines`, in order of first appearance. */
  function Keys(lines: seq<ComputedLine>): seq<GroupKey> {
    if lines == [] then []
    else
      var front, key := Keys(lines[..|lines| - 1]), KeyOf(lines[|lines| - 1]);
      if key in front then front else front + [key]
  }

  /** The lines of one group, in order. */
  function InGroup(lines: seq<ComputedLine>, key: GroupKey): seq<ComputedLine> {
    if lines == [] then []
    else
      var front, last := InGroup(lines[..|lines| - 1], key), lines[|lines| - 1];
      if KeyOf(last) == key then front + [last] else front
  }

  function NetOf(line: ComputedLine): Decimal {
    line.netAmount
  }

  function Nets(lines: seq<ComputedLine>): seq<Decimal> {
    Map(NetOf, lines)
  }

  /** VAT on a basis: the hundredth is two more decimal places, and the only rounding comes last. */
  function VatOn(basis: Decimal, rate: Decimal): Decimal {
    var product := Multiply(basis, rate);
    Rescale(Decimal(product.value, product.scale + 2), MONETARY_SCALE)
  }

  function FirstReason(lines: seq<ComputedLine>): Option<string> {
    if lines == [] then None
    else if Stated(lines[0].source.exemptionReason) then lines[0].source.exemptionReason
    else FirstReason(lines[1..])
  }

  function GroupOf(key: GroupKey, members: seq<ComputedLine>): ComputedTaxGroup {
    var basis := Sum(Nets(members));
    var rate := Decimal(key.rate, MONETARY_SCALE);
    ComputedTaxGroup(key.category, rate, basis, VatOn(basis, rate),
                     if ReasonRequired(key.category) then FirstReason(members) else None)
  }

  function TaxGroups(lines: seq<ComputedLine>): seq<ComputedTaxGroup> {
    Map((key: GroupKey) => GroupOf(key, InGroup(lines, key)), Keys(lines))
  }

  function TaxOf(group: ComputedTaxGroup): Decimal {
    group.calculatedAmount
  }

  // ---------------------------------------------------------------------- the invoice

  function PrepaidOf(draft: InvoiceDraft): Result<Decimal, AmountError> {
    if Stated(draft.prepaidAmount) then
      var prepaid :- Required(draft.prepaidAmount.value, Prepaid);
      Ok(Rescale(prepaid, MONETARY_SCALE))
    else
      Ok(Rescale(ZERO, MONETARY_SCALE))
  }

  function TotalsOf(lines: seq<ComputedLine>, groups: seq<ComputedTaxGroup>, prepaid: Decimal): ComputedTotals {
    var lineTotal := Sum(Nets(lines));
    var taxTotal := Sum(Map(TaxOf, groups));
    var grandTotal := Add(lineTotal, taxTotal);
    ComputedTotals(lineTotal, lineTotal, taxTotal, grandTotal, prepaid, Subtract(grandTotal, prepaid))
  }

  /** What computing an invoice means: grouping by definition rather than by the order of a loop. */
  function Computed(draft: InvoiceDraft): Result<ComputedInvoice, AmountError> {
    var lines :- ComputeLines(draft.lines);
    var prepaid :- PrepaidOf(draft);
    Ok(ComputedInvoice(lines, TaxGroups(lines), TotalsOf(lines, TaxGroups(lines), prepaid)))
  }

  lemma {:induction false} KeysAreDistinct(lines: seq<ComputedLine>)
    ensures Distinct(Keys(lines))
    ensures forall key :: key in Keys(lines) <==> exists k :: 0 <= k < |lines| && KeyOf(lines[k]) == key
    ensures forall key :: key in Keys(lines) <==> InGroup(lines, key) != []
  {
    if lines != [] {
      var front, last := lines[..|lines| - 1], lines[|lines| - 1];
      KeysAreDistinct(front);
      forall key | key in Keys(lines) ensures exists k :: 0 <= k < |lines| && KeyOf(lines[k]) == key {
        if key in Keys(front) {
          var k :| 0 <= k < |front| && KeyOf(front[k]) == key;
          assert lines[k] == front[k];
        } else {
          assert KeyOf(lines[|lines| - 1]) == key;
        }
      }
      forall k | 0 <= k < |lines| ensures KeyOf(lines[k]) in Keys(lines) {
        if k < |front| {
          assert lines[k] == front[k];
        }
      }
    }
  }

  lemma {:induction false} GroupsShareKey(lines: seq<ComputedLine>, key: GroupKey)
    ensures forall k :: 0 <= k < |InGroup(lines, key)| ==> KeyOf(InGroup(lines, key)[k]) == key
  {
    if lines != [] {
      GroupsShareKey(lines[..|lines| - 1], key);
    }
  }

  lemma RescaleHasScale(d: Decimal, scale: nat)
    ensures Rescale(d, scale).scale == scale
  {}
}
