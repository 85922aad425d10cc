/** The amount-carrying part of a CII document: how it is written, and how it is read back. */
module Cii {
  import opened Prelude
  import opened Seqs
  import opened Money
  import opened DecimalText
  import opened XmlText
  import opened Draft
  import opened Compute
  import opened CiiTree

  // ---------------------------------------------------------------------- writing

  function MoneyText(amount: Decimal): string {
    Format(Rescale(amount, MONETARY_SCALE))
  }

  function CategoryText(category: VatCategory): string {
    match category
    case S => "S"
    case Z => "Z"
    case E => "E"
    case AE => "AE"
    case K => "K"
    case G => "G"
    case Unlisted(name) => name
  }

  function Plain(tag: Tag, text: string): XmlNode {
    Leaf(tag, text, map[])
  }

  function LineTaxNode(line: ComputedLine): XmlNode {
    El(ApplicableTradeTax, [
      Plain(TypeCode, "VAT"),
      Plain(CategoryCode, CategoryText(line.vatCategory)),
      Plain(RateApplicablePercent, MoneyText(line.vatRatePercent))])
  }

  function LineNode(line: ComputedLine): XmlNode {
    El(IncludedSupplyChainTradeLineItem, [
      El(AssociatedDocumentLineDocument, [Plain(LineID, line.lineId)]),
      El(SpecifiedTradeProduct, [Plain(Name, line.source.name)]),
      El(SpecifiedLineTradeAgreement, [
        El(NetPriceProductTradePrice, [Plain(ChargeAmount, Format(line.unitPrice))])]),
      El(SpecifiedLineTradeDelivery, [
        Leaf(BilledQuantity, Format(line.quantity), map[UnitCode := line.source.unitCode])]),
      El(SpecifiedLineTradeSettlement, [
        LineTaxNode(line),
        El(SpecifiedTradeSettlementLineMonetarySummation, [Plain(LineTotalAmount, MoneyText(line.netAmount))])])])
  }

  /** An optional element: present exactly when there is something to state. */
  function Optional(present: bool, node: XmlNode): seq<XmlNode> {
    if present then [node] else []
  }

  function ReasonNode(group: ComputedTaxGroup): seq<XmlNode> {
    Optional(Stated(group.exemptionReason), Plain(ExemptionReason, group.exemptionReason.UnwrapOr("")))
  }

  function TaxElements(group: ComputedTaxGroup): seq<XmlNode> {
    [Plain(CalculatedAmount, MoneyText(group.calculatedAmount)), Plain(TypeCode, "VAT")] +
    ReasonNode(group) +
    [Plain(BasisAmount, MoneyText(group.basisAmount)),
     Plain(CategoryCode, CategoryText(group.categoryCode)),
     Plain(RateApplicablePercent, MoneyText(group.ratePercent))]
  }

  function TaxNode(group: ComputedTaxGroup): XmlNode {
    El(ApplicableTradeTax, TaxElements(group))
  }

  function PrepaidNode(totals: ComputedTotals): seq<XmlNode> {
    Optional(totals.prepaidAmount.value != 0, Plain(TotalPrepaidAmount, MoneyText(totals.prepaidAmount)))
  }

  function SummationElements(totals: ComputedTotals, currency: string): seq<XmlNode> {
    [Plain(LineTotalAmount, MoneyText(totals.lineTotalAmount)),
     Plain(TaxBasisTotalAmount, MoneyText(totals.taxBasisTotalAmount)),
     Leaf(TaxTotalAmount, MoneyText(totals.taxTotalAmount), map[CurrencyID := currency]),
     Plain(GrandTotalAmount, MoneyText(totals.grandTotalAmount))] +
    PrepaidNode(totals) +
    [Plain(DuePayableAmount, MoneyText(totals.duePayableAmount))]
  }

  function SummationNode(totals: ComputedTotals, currency: string): XmlNode {
    El(SpecifiedTradeSettlementHeaderMonetarySummation, SummationElements(totals, currency))
  }

  /** The parts of the document that carry no amount, left open. */
  datatype Surroundings = Surroundings(
    currency: string, agreement: seq<XmlNode>, delivery: seq<XmlNode>, paymentMeans: seq<XmlNode>,
    hasTerms: bool, terms: seq<XmlNode>)

  function SettlementNode(invoice: ComputedInvoice, s: Surroundings): XmlNode {
    El(ApplicableHeaderTradeSettlement,
      [Plain(InvoiceCurrencyCode, s.currency), El(SpecifiedTradeSettlementPaymentMeans, s.paymentMeans)] +
      Map(TaxNode, invoice.taxGroups) +
      (Optional(s.hasTerms, El(SpecifiedTradePaymentTerms, s.terms)) + [SummationNode(invoice.totals, s.currency)]))
  }

  function TransactionNode(invoice: ComputedInvoice, s: Surroundings): XmlNode {
    El(SupplyChainTradeTransaction,
      Map(LineNode, invoice.lines) +
      [El(ApplicableHeaderTradeAgreement, s.agreement),
       El(ApplicableHeaderTradeDelivery, s.delivery),
       SettlementNode(invoice, s)])
  }

  // ---------------------------------------------------------------------- reading

  datatype CiiLine = CiiLine(
    id: Option<string>, name: Option<string>, quantity: Option<Decimal>, unitCode: Option<string>,
    netUnitPrice: Option<Decimal>, netAmount: Option<Decimal>, vatCategoryCode: Option<string>, vatRatePercent: Option<Decimal>)

  datatype CiiTaxBreakdown = CiiTaxBreakdown(
    basisAmount: Option<Decimal>, calculatedAmount: Option<Decimal>, categoryCode: Option<string>,
    ratePercent: Option<Decimal>, exemptionReason: Option<string>)

  datatype CiiTotals = CiiTotals(
    lineTotalAmount: Option<Decimal>, allowanceTotalAmount: Option<Decimal>, chargeTotalAmount: Option<Decimal>,
    taxBasisTotalAmount: Option<Decimal>, taxTotalAmount: Option<Decimal>, grandTotalAmount: Option<Decimal>,
    prepaidAmount: Option<Decimal>, duePayableAmount: Option<Decimal>)

  datatype CiiInvoice = CiiInvoice(lines: seq<CiiLine>, taxBreakdown: seq<CiiTaxBreakdown>, totals: CiiTotals)

  function Amount(node: Option<Js>): Option<Decimal> {
    ParseDecimal(TextOf(node))
  }

  function ParseLine(js: Js): CiiLine {
    var node := Some(js);
    var agreement := Child(node, SpecifiedLineTradeAgreement);
    var settlement := Child(node, SpecifiedLineTradeSettlement);
    var billed := Child(Child(node, SpecifiedLineTradeDelivery), BilledQuantity);
    var taxes := AsArray(Child(settlement, ApplicableTradeTax));
    var tax := if taxes != [] then Some(taxes[0]) else None;
    CiiLine(
      TextOf(Child(Child(node, AssociatedDocumentLineDocument), LineID)),
      TextOf(Child(Child(node, SpecifiedTradeProduct), Name)),
      Amount(billed),
      AttrOf(billed, UnitCode),
      Amount(Child(Child(agreement, NetPriceProductTradePrice), ChargeAmount)),
      Amount(Child(Child(settlement, SpecifiedTradeSettlementLineMonetarySummation), LineTotalAmount)),
      TextOf(Child(tax, CategoryCode)),
      Amount(Child(tax, RateApplicablePercent)))
  }

  function ParseTaxBreakdown(js: Js): CiiTaxBreakdown {
    var node := Some(js);
    CiiTaxBreakdown(
      Amount(Child(node, BasisAmount)), Amount(Child(node, CalculatedAmount)), TextOf(Child(node, CategoryCode)),
      Amount(Child(node, RateApplicablePercent)), TextOf(Child(node, ExemptionReason)))
  }

  function ParseTotals(node: Option<Js>): CiiTotals {
    CiiTotals(
      Amount(Child(node, LineTotalAmount)), Amount(Child(node, AllowanceTotalAmount)), Amount(Child(node, ChargeTotalAmount)),
      Amount(Child(node, TaxBasisTotalAmount)), Amount(Child(node, TaxTotalAmount)), Amount(Child(node, GrandTotalAmount)),
      Amount(Child(node, TotalPrepaidAmount)), Amount(Child(node, DuePayableAmount)))
  }

  function ParseTransaction(transaction: Option<Js>): CiiInvoice {
    var settlement := Child(transaction, ApplicableHeaderTradeSettlement);
    CiiInvoice(
      Map(ParseLine, AsArray(Child(transaction, IncludedSupplyChainTradeLineItem))),
      Map(ParseTaxBreakdown, AsArray(Child(settlement, ApplicableTradeTax))),
      ParseTotals(Child(settlement, SpecifiedTradeSettlementHeaderMonetarySummation)))
  }

  // ---------------------------------------------------------------------- one leaf

  lemma FormatIsPlainText(d: Decimal)
    ensures IsTrimmed(Format(d)) && forall k :: 0 <= k < |Format(d)| ==> !IsControl(Format(d)[k])
  {
    var whole, fraction := FormatSpells(d);
    SpelledIsPlainText(d.value < 0, whole, fraction);
  }

  lemma SpelledIsPlainText(negative: bool, whole: string, fraction: string)
    requires AllDigits(whole) && AllDigits(fraction) && whole != ""
    ensures IsTrimmed(Spelled(negative, whole, fraction))
    ensures forall k :: 0 <= k < |Spelled(negative, whole, fraction)| ==> !IsControl(Spelled(negative, whole, fraction)[k])
  {
    var s := Spelled(negative, whole, fraction);
    forall k | 0 <= k < |s| ensures IsDigit(s[k]) || s[k] == '-' || s[k] == '.' {}
  }

  lemma LeafText(tag: Tag, text: string, attrs: map<AttrName, string>)
    ensures TextOf(Some(Seen(Leaf(tag, text, attrs)))) == Said(text)
  {
    hide NonBlank, Sanitise, Trim;
  }

  /** An amount written into a leaf is read back whole, with or without attributes beside it. */
  lemma AmountComesThrough(tag: Tag, d: Decimal, attrs: map<AttrName, string>)
    ensures Amount(Some(Seen(Leaf(tag, Format(d), attrs)))) == Some(d)
  {
    FormatIsPlainText(d);
    TrimmedStays(Format(d));
    FormatParses(d);
    LeafText(tag, Format(d), attrs);
    hide Sanitise, Trim, Format, Seen, TextOf, NonBlank, ParseDecimal;
  }

  /** What a text field says once it has come through. */
  function Said(text: string): Option<string> {
    NonBlank(Trim(Sanitise(text)))
  }

  lemma TextComesThrough(tag: Tag, text: string)
    ensures TextOf(Some(Seen(Plain(tag, text)))) == Said(text)
  {}

  /** A single leaf under a single container. */
  lemma OneLeaf(tag: Tag, leaf: XmlNode)
    ensures Child(Some(Seen(El(tag, [leaf]))), leaf.tag) == Some(Seen(leaf))
  {
    OnlyChild(tag, [leaf], 0);
  }

  // ---------------------------------------------------------------------- one line

  /** The code a category has in EN 16931, as a reader finds it. */
  function CategorySaid(category: VatCategory): Option<string> {
    match category
    case S => Some("S")
    case Z => Some("Z")
    case E => Some("E")
    case AE => Some("AE")
    case K => Some("K")
    case G => Some("G")
    case Unlisted(name) => Said(name)
  }

  /** The category a reader makes of a code. */
  function CategoryNamed(code: string): VatCategory {
    if code == "S" then S
    else if code == "Z" then Z
    else if code == "E" then E
    else if code == "AE" then AE
    else if code == "K" then K
    else if code == "G" then G
    else Unlisted(code)
  }

  /** Only a category of the six is read as one, and it is read as itself. */
  lemma CategoryIsRead(category: VatCategory)
    ensures !category.Unlisted? ==> CategorySaid(category).Some? && CategoryNamed(CategorySaid(category).value) == category
  {}

  lemma CategoryIsSaid(category: VatCategory)
    ensures Said(CategoryText(category)) == CategorySaid(category)
  {
    if !category.Unlisted? {
      var text := CategoryText(category);
      hide Sanitise, Trim;
      PlainIsSaid(text);
    }
  }

  lemma VatIsSaid()
    ensures Said("VAT") == Some("VAT")
  {
    hide Sanitise, Trim;
    PlainIsSaid("VAT");
  }

  /** Text without spaces at its ends or control characters is read as it is. */
  lemma PlainIsSaid(text: string)
    requires text != "" && IsTrimmed(text) && forall k :: 0 <= k < |text| ==> !IsControl(text[k])
    ensures Said(text) == Some(text)
  {
    TrimmedStays(text);
    hide Sanitise, Trim;
  }

  /** What reading a line has to give. */
  function LineSaid(line: ComputedLine): CiiLine {
    CiiLine(
      Said(line.lineId), Said(line.source.name), Some(line.quantity), Said(line.source.unitCode),
      Some(line.unitPrice), Some(Rescale(line.netAmount, MONETARY_SCALE)), CategorySaid(line.vatCategory),
      Some(Rescale(line.vatRatePercent, MONETARY_SCALE)))
  }

  lemma LineTaxComesThrough(line: ComputedLine)
    ensures var tax := Some(Seen(LineTaxNode(line)));
            && TextOf(Child(tax, TypeCode)) == Some("VAT")
            && TextOf(Child(tax, CategoryCode)) == CategorySaid(line.vatCategory)
            && Amount(Child(tax, RateApplicablePercent)) == Some(Rescale(line.vatRatePercent, MONETARY_SCALE))
  {
    hide Seen, Amount, TextOf, Said, Rescale, Format, CategoryText, CategorySaid;
    OnlyChild(ApplicableTradeTax, LineTaxNode(line).children, 0);
    OnlyChild(ApplicableTradeTax, LineTaxNode(line).children, 1);
    OnlyChild(ApplicableTradeTax, LineTaxNode(line).children, 2);
    VatIsSaid();
    CategoryIsSaid(line.vatCategory);
    TextComesThrough(TypeCode, "VAT");
    TextComesThrough(CategoryCode, CategoryText(line.vatCategory));
    AmountComesThrough(RateApplicablePercent, Rescale(line.vatRatePercent, MONETARY_SCALE), map[]);
  }

  lemma LineSettlementComesThrough(line: ComputedLine)
    ensures var settlement := Some(Seen(LineNode(line).children[4]));
            && AsArray(Child(settlement, ApplicableTradeTax)) == [Seen(LineTaxNode(line))]
            && Amount(Child(Child(settlement, SpecifiedTradeSettlementLineMonetarySummation), LineTotalAmount))
               == Some(Rescale(line.netAmount, MONETARY_SCALE))
  {
    hide Seen, Amount, Rescale, Format, LineTaxNode;
    var node := LineNode(line).children[4];
    TaxNodeTag(line);
    var summation := node.children[1];
    OnlyChild(SpecifiedLineTradeSettlement, node.children, 0);
    OnlyChild(SpecifiedLineTradeSettlement, node.children, 1);
    SeenIsNoArray(LineTaxNode(line));
    OneLeaf(summation.tag, Plain(LineTotalAmount, MoneyText(line.netAmount)));
    AmountComesThrough(LineTotalAmount, Rescale(line.netAmount, MONETARY_SCALE), map[]);
  }

  lemma TaxNodeTag(line: ComputedLine)
    ensures LineTaxNode(line).tag == ApplicableTradeTax
  {}

  lemma AttrComesThrough(tag: Tag, text: string, name: AttrName, value: string)
    ensures AttrOf(Some(Seen(Leaf(tag, text, map[name := value]))), name) == Said(value)
  {
    hide NonBlank, Sanitise, Trim;
    var cleaned := Clean(Leaf(tag, text, map[name := value]));
    assert cleaned.attrs == map[name := Sanitise(value)] && name in cleaned.attrs;
    assert Collapse(cleaned).fields[AttrField(name)] == Text(Trim(Sanitise(value)));
  }

  lemma QuantityComesThrough(line: ComputedLine)
    ensures var billed := Child(Some(Seen(LineNode(line).children[3])), BilledQuantity);
            Amount(billed) == Some(line.quantity) && AttrOf(billed, UnitCode) == Said(line.source.unitCode)
  {
    hide Seen, Amount, AttrOf, Format, Said;
    var leaf := Leaf(BilledQuantity, Format(line.quantity), map[UnitCode := line.source.unitCode]);
    OneLeaf(SpecifiedLineTradeDelivery, leaf);
    AmountComesThrough(BilledQuantity, line.quantity, map[UnitCode := line.source.unitCode]);
    AttrComesThrough(BilledQuantity, Format(line.quantity), UnitCode, line.source.unitCode);
  }

  lemma PriceComesThrough(line: ComputedLine)
    ensures Amount(Child(Child(Some(Seen(LineNode(line).children[2])), NetPriceProductTradePrice), ChargeAmount)) == Some(line.unitPrice)
  {
    hide Seen, Amount, Format;
    var leaf := Plain(ChargeAmount, Format(line.unitPrice));
    OneLeaf(SpecifiedLineTradeAgreement, El(NetPriceProductTradePrice, [leaf]));
    OneLeaf(NetPriceProductTradePrice, leaf);
    AmountComesThrough(ChargeAmount, line.unitPrice, map[]);
  }

  lemma NamesComeThrough(line: ComputedLine)
    ensures TextOf(Child(Some(Seen(LineNode(line).children[0])), LineID)) == Said(line.lineId)
    ensures TextOf(Child(Some(Seen(LineNode(line).children[1])), Name)) == Said(line.source.name)
  {
    hide Seen, TextOf, Said;
    OneLeaf(AssociatedDocumentLineDocument, Plain(LineID, line.lineId));
    OneLeaf(SpecifiedTradeProduct, Plain(Name, line.source.name));
    TextComesThrough(LineID, line.lineId);
    TextComesThrough(Name, line.source.name);
  }

  lemma LineChildren(line: ComputedLine)
    ensures var node := Some(Seen(LineNode(line)));
            && |LineNode(line).children| == 5
            && Child(node, AssociatedDocumentLineDocument) == Some(Seen(LineNode(line).children[0]))
            && Child(node, SpecifiedTradeProduct) == Some(Seen(LineNode(line).children[1]))
            && Child(node, SpecifiedLineTradeAgreement) == Some(Seen(LineNode(line).children[2]))
            && Child(node, SpecifiedLineTradeDelivery) == Some(Seen(LineNode(line).children[3]))
            && Child(node, SpecifiedLineTradeSettlement) == Some(Seen(LineNode(line).children[4]))
  {
    hide Seen, Format, Rescale;
    var children := LineNode(line).children;
    for k := 0 to 5
      invariant forall j :: 0 <= j < k ==> Child(Some(Seen(LineNode(line))), children[j].tag) == Some(Seen(children[j]))
    {
      OnlyChild(IncludedSupplyChainTradeLineItem, children, k);
    }
    assert children[0].tag == AssociatedDocumentLineDocument && children[1].tag == SpecifiedTradeProduct;
  }

  /** A written line reads back as itself. */
  lemma LineReadsBack(line: ComputedLine)
    ensures ParseLine(Seen(LineNode(line))) == LineSaid(line)
  {
    hide Seen, Amount, TextOf, AttrOf, Said, Rescale, Format, LineNode, LineTaxNode, Child;
    LineChildren(line);
    NamesComeThrough(line);
    PriceComesThrough(line);
    QuantityComesThrough(line);
    LineSettlementComesThrough(line);
    LineTaxComesThrough(line);
  }

  // ---------------------------------------------------------------------- one VAT group

  function GroupSaid(group: ComputedTaxGroup): CiiTaxBreakdown {
    CiiTaxBreakdown(
      Some(Rescale(group.basisAmount, MONETARY_SCALE)), Some(Rescale(group.calculatedAmount, MONETARY_SCALE)),
      CategorySaid(group.categoryCode), Some(Rescale(group.ratePercent, MONETARY_SCALE)),
      if Stated(group.exemptionReason) then Said(group.exemptionReason.value) else None)
  }

  /** Every element of a container stands alone under its name. */
  predicate AllAlone(children: seq<XmlNode>) {
    forall j, k :: 0 <= j < k < |children| ==> children[j].tag != children[k].tag
  }

  lemma AloneComeThrough(tag: Tag, children: seq<XmlNode>)
    requires AllAlone(children)
    ensures forall k :: 0 <= k < |children| ==> Child(Some(Seen(El(tag, children))), children[k].tag) == Some(Seen(children[k]))
  {
    forall k | 0 <= k < |children|
      ensures Child(Some(Seen(El(tag, children))), children[k].tag) == Some(Seen(children[k]))
    {
      OnlyChild(tag, children, k);
    }
  }

  function TaxTags(reason: bool): seq<Tag> {
    [CalculatedAmount, TypeCode] + (if reason then [ExemptionReason] else []) + [BasisAmount, CategoryCode, RateApplicablePercent]
  }

  lemma TaxTagsAreAlone(reason: bool)
    ensures forall j, k :: 0 <= j < k < |TaxTags(reason)| ==> TaxTags(reason)[j] != TaxTags(reason)[k]
    ensures ExemptionReason in TaxTags(reason) <==> reason
  {}

  lemma TaxHasTags(group: ComputedTaxGroup)
    ensures |TaxElements(group)| == |TaxTags(Stated(group.exemptionReason))|
    ensures forall k :: 0 <= k < |TaxElements(group)| ==> TaxElements(group)[k].tag == TaxTags(Stated(group.exemptionReason))[k]
  {
    hide MoneyText, CategoryText;
  }

  lemma TaxElementsAre(group: ComputedTaxGroup)
    ensures AllAlone(TaxElements(group))
    ensures !Stated(group.exemptionReason) ==> forall k :: 0 <= k < |TaxElements(group)| ==> TaxElements(group)[k].tag != ExemptionReason
  {
    hide TaxElements, TaxTags;
    TaxHasTags(group);
    TaxTagsAreAlone(Stated(group.exemptionReason));
  }

  lemma TaxList(group: ComputedTaxGroup)
    ensures var calculated, typeCode := Plain(CalculatedAmount, MoneyText(group.calculatedAmount)), Plain(TypeCode, "VAT");
            var basis, category := Plain(BasisAmount, MoneyText(group.basisAmount)), Plain(CategoryCode, CategoryText(group.categoryCode));
            var rate := Plain(RateApplicablePercent, MoneyText(group.ratePercent));
            TaxElements(group) ==
              if Stated(group.exemptionReason)
              then [calculated, typeCode, Plain(ExemptionReason, group.exemptionReason.value), basis, category, rate]
              else [calculated, typeCode, basis, category, rate]
  {
    hide MoneyText, CategoryText;
  }

  lemma GroupReadsBack(group: ComputedTaxGroup)
    ensures ParseTaxBreakdown(Seen(TaxNode(group))) == GroupSaid(group)
    ensures TextOf(Child(Some(Seen(TaxNode(group))), TypeCode)) == Some("VAT")
  {
    hide Seen, Amount, TextOf, Said, Rescale, Format, TaxElements, Child, CategoryText, CategorySaid, AllAlone;
    TaxElementsAre(group);
    TaxList(group);
    var children := TaxElements(group);
    var reason := if Stated(group.exemptionReason) then 1 else 0;
    AloneComeThrough(ApplicableTradeTax, children);
    AmountComesThrough(CalculatedAmount, Rescale(group.calculatedAmount, MONETARY_SCALE), map[]);
    AmountComesThrough(BasisAmount, Rescale(group.basisAmount, MONETARY_SCALE), map[]);
    AmountComesThrough(RateApplicablePercent, Rescale(group.ratePercent, MONETARY_SCALE), map[]);
    CategoryIsSaid(group.categoryCode);
    VatIsSaid();
    TextComesThrough(TypeCode, "VAT");
    TextComesThrough(CategoryCode, CategoryText(group.categoryCode));
    assert children[0].tag == CalculatedAmount && children[1].tag == TypeCode && children[2 + reason].tag == BasisAmount;
    assert children[3 + reason].tag == CategoryCode && children[4 + reason].tag == RateApplicablePercent;
    if Stated(group.exemptionReason) {
      assert children[2].tag == ExemptionReason;
      TextComesThrough(ExemptionReason, group.exemptionReason.value);
    } else {
      NoChild(ApplicableTradeTax, children, ExemptionReason);
      NoText();
    }
  }

  lemma NoText()
    ensures TextOf(None) == None && Amount(None) == None
  {}

  // ---------------------------------------------------------------------- the totals

  function TotalsSaid(totals: ComputedTotals): CiiTotals {
    CiiTotals(
      Some(Rescale(totals.lineTotalAmount, MONETARY_SCALE)), None, None,
      Some(Rescale(totals.taxBasisTotalAmount, MONETARY_SCALE)), Some(Rescale(totals.taxTotalAmount, MONETARY_SCALE)),
      Some(Rescale(totals.grandTotalAmount, MONETARY_SCALE)),
      if totals.prepaidAmount.value != 0 then Some(Rescale(totals.prepaidAmount, MONETARY_SCALE)) else None,
      Some(Rescale(totals.duePayableAmount, MONETARY_SCALE)))
  }

  function SummationTags(prepaid: bool): seq<Tag> {
    [LineTotalAmount, TaxBasisTotalAmount, TaxTotalAmount, GrandTotalAmount] +
    (if prepaid then [TotalPrepaidAmount] else []) + [DuePayableAmount]
  }

  lemma SummationTagsAreAlone(prepaid: bool)
    ensures forall j, k :: 0 <= j < k < |SummationTags(prepaid)| ==> SummationTags(prepaid)[j] != SummationTags(prepaid)[k]
    ensures AllowanceTotalAmount !in SummationTags(prepaid) && ChargeTotalAmount !in SummationTags(prepaid)
    ensures TotalPrepaidAmount in SummationTags(prepaid) <==> prepaid
  {}

  lemma SummationHasTags(totals: ComputedTotals, currency: string)
    ensures |SummationElements(totals, currency)| == |SummationTags(totals.prepaidAmount.value != 0)|
    ensures forall k :: 0 <= k < |SummationElements(totals, currency)| ==>
              SummationElements(totals, currency)[k].tag == SummationTags(totals.prepaidAmount.value != 0)[k]
  {
    hide MoneyText;
  }

  lemma SummationElementsAre(totals: ComputedTotals, currency: string)
    ensures var children := SummationElements(totals, currency);
            && AllAlone(children)
            && (forall k :: 0 <= k < |children| ==> children[k].tag != AllowanceTotalAmount && children[k].tag != ChargeTotalAmount)
            && (totals.prepaidAmount.value == 0 ==> forall k :: 0 <= k < |children| ==> children[k].tag != TotalPrepaidAmount)
  {
    hide SummationElements, SummationTags;
    SummationHasTags(totals, currency);
    SummationTagsAreAlone(totals.prepaidAmount.value != 0);
  }

  lemma SummationList(totals: ComputedTotals, currency: string)
    ensures var lineTotal := Plain(LineTotalAmount, MoneyText(totals.lineTotalAmount));
            var basis := Plain(TaxBasisTotalAmount, MoneyText(totals.taxBasisTotalAmount));
            var tax := Leaf(TaxTotalAmount, MoneyText(totals.taxTotalAmount), map[CurrencyID := currency]);
            var grand := Plain(GrandTotalAmount, MoneyText(totals.grandTotalAmount));
            var prepaid := Plain(TotalPrepaidAmount, MoneyText(totals.prepaidAmount));
            var due := Plain(DuePayableAmount, MoneyText(totals.duePayableAmount));
            SummationElements(totals, currency) ==
              if totals.prepaidAmount.value != 0 then [lineTotal, basis, tax, grand, prepaid, due]
              else [lineTotal, basis, tax, grand, due]
  {
    hide MoneyText;
  }

  /** What the reader finds under the summation, element by element. */
  lemma SummationComesThrough(totals: ComputedTotals, currency: string)
    ensures var node := Some(Seen(SummationNode(totals, currency)));
            && Child(node, LineTotalAmount) == Some(Seen(Plain(LineTotalAmount, MoneyText(totals.lineTotalAmount))))
            && Child(node, TaxBasisTotalAmount) == Some(Seen(Plain(TaxBasisTotalAmount, MoneyText(totals.taxBasisTotalAmount))))
            && Child(node, TaxTotalAmount) ==
                 Some(Seen(Leaf(TaxTotalAmount, MoneyText(totals.taxTotalAmount), map[CurrencyID := currency])))
            && Child(node, GrandTotalAmount) == Some(Seen(Plain(GrandTotalAmount, MoneyText(totals.grandTotalAmount))))
            && Child(node, DuePayableAmount) == Some(Seen(Plain(DuePayableAmount, MoneyText(totals.duePayableAmount))))
            && Child(node, AllowanceTotalAmount) == None && Child(node, ChargeTotalAmount) == None
            && Child(node, TotalPrepaidAmount) ==
                 (if totals.prepaidAmount.value != 0 then Some(Seen(Plain(TotalPrepaidAmount, MoneyText(totals.prepaidAmount)))) else None)
  {
    hide Seen, MoneyText, SummationElements, Child, AllAlone;
    SummationElementsAre(totals, currency);
    SummationList(totals, currency);
    var children := SummationElements(totals, currency);
    AloneComeThrough(SpecifiedTradeSettlementHeaderMonetarySummation, children);
    NoChild(SpecifiedTradeSettlementHeaderMonetarySummation, children, AllowanceTotalAmount);
    NoChild(SpecifiedTradeSettlementHeaderMonetarySummation, children, ChargeTotalAmount);
    assert children[0].tag == LineTotalAmount && children[1].tag == TaxBasisTotalAmount && children[2].tag == TaxTotalAmount;
    assert children[3].tag == GrandTotalAmount && children[|children| - 1].tag == DuePayableAmount;
    if totals.prepaidAmount.value != 0 {
      assert children[4].tag == TotalPrepaidAmount;
    } else {
      NoChild(SpecifiedTradeSettlementHeaderMonetarySummation, children, TotalPrepaidAmount);
    }
  }

  lemma TotalsReadBack(totals: ComputedTotals, currency: string)
    ensures ParseTotals(Some(Seen(SummationNode(totals, currency)))) == TotalsSaid(totals)
  {
    hide Seen, Amount, Rescale, Format, SummationNode, Child;
    SummationComesThrough(totals, currency);
    NoText();
    AmountComesThrough(LineTotalAmount, Rescale(totals.lineTotalAmount, MONETARY_SCALE), map[]);
    AmountComesThrough(TaxBasisTotalAmount, Rescale(totals.taxBasisTotalAmount, MONETARY_SCALE), map[]);
    AmountComesThrough(TaxTotalAmount, Rescale(totals.taxTotalAmount, MONETARY_SCALE), map[CurrencyID := currency]);
    AmountComesThrough(GrandTotalAmount, Rescale(totals.grandTotalAmount, MONETARY_SCALE), map[]);
    AmountComesThrough(DuePayableAmount, Rescale(totals.duePayableAmount, MONETARY_SCALE), map[]);
    AmountComesThrough(TotalPrepaidAmount, Rescale(totals.prepaidAmount, MONETARY_SCALE), map[]);
  }

  // ---------------------------------------------------------------------- the whole document

  /** Every line, every group and every total, in order. */
  function InvoiceSaid(invoice: ComputedInvoice): CiiInvoice {
    CiiInvoice(Map(LineSaid, invoice.lines), Map(GroupSaid, invoice.taxGroups), TotalsSaid(invoice.totals))
  }

  /** The repeated elements of a container whose other elements bear other names. */
  lemma RepeatedComeThrough(tag: Tag, before: seq<XmlNode>, repeated: seq<XmlNode>, rest: seq<XmlNode>, name: Tag)
    requires forall k :: 0 <= k < |repeated| ==> repeated[k].tag == name
    requires forall k :: 0 <= k < |before| ==> before[k].tag != name
    requires forall k :: 0 <= k < |rest| ==> rest[k].tag != name
    ensures AsArray(Child(Some(Seen(El(tag, before + repeated + rest))), name)) == Map(Seen, repeated)
  {
    NamedSplits(before + repeated, rest, name);
    NamedSplits(before, repeated, name);
    NamedNone(before, name);
    NamedAll(repeated, name);
    NamedNone(rest, name);
    ArrayOfElement(tag, before + repeated + rest, name);
    assert Named(before + repeated + rest, name) == repeated;
  }

  /** The last element of a container, when none before it bears its name. */
  lemma LastComesThrough(tag: Tag, front: seq<XmlNode>, last: XmlNode)
    requires forall k :: 0 <= k < |front| ==> front[k].tag != last.tag
    ensures Child(Some(Seen(El(tag, front + [last]))), last.tag) == Some(Seen(last))
  {
    OnlyChild(tag, front + [last], |front|);
  }

  lemma GroupsComeThrough(invoice: ComputedInvoice, s: Surroundings)
    ensures AsArray(Child(Some(Seen(SettlementNode(invoice, s))), ApplicableTradeTax)) == Map(Seen, Map(TaxNode, invoice.taxGroups))
  {
    hide Seen, SummationElements, TaxElements, AsArray, Child;
    var before := [Plain(InvoiceCurrencyCode, s.currency), El(SpecifiedTradeSettlementPaymentMeans, s.paymentMeans)];
    var terms := Optional(s.hasTerms, El(SpecifiedTradePaymentTerms, s.terms));
    RepeatedComeThrough(ApplicableHeaderTradeSettlement, before, Map(TaxNode, invoice.taxGroups),
                        terms + [SummationNode(invoice.totals, s.currency)], ApplicableTradeTax);
  }

  lemma SummationIsFound(invoice: ComputedInvoice, s: Surroundings)
    ensures Child(Some(Seen(SettlementNode(invoice, s))), SpecifiedTradeSettlementHeaderMonetarySummation)
            == Some(Seen(SummationNode(invoice.totals, s.currency)))
  {
    hide Seen, SummationElements, TaxElements, Child;
    var before := [Plain(InvoiceCurrencyCode, s.currency), El(SpecifiedTradeSettlementPaymentMeans, s.paymentMeans)];
    var groups := Map(TaxNode, invoice.taxGroups);
    var terms := Optional(s.hasTerms, El(SpecifiedTradePaymentTerms, s.terms));
    var last := SummationNode(invoice.totals, s.currency);
    assert before + groups + (terms + [last]) == (before + groups + terms) + [last];
    LastComesThrough(ApplicableHeaderTradeSettlement, before + groups + terms, last);
  }

  lemma SettlementComesThrough(invoice: ComputedInvoice, s: Surroundings)
    ensures var settlement := Some(Seen(SettlementNode(invoice, s)));
            && Map(ParseTaxBreakdown, AsArray(Child(settlement, ApplicableTradeTax))) == Map(GroupSaid, invoice.taxGroups)
            && ParseTotals(Child(settlement, SpecifiedTradeSettlementHeaderMonetarySummation)) == TotalsSaid(invoice.totals)
  {
    hide Seen, ParseTaxBreakdown, GroupSaid, SettlementNode, TaxNode, SummationNode, AsArray, Child, ParseTotals, TotalsSaid;
    GroupsComeThrough(invoice, s);
    SummationIsFound(invoice, s);
    TotalsReadBack(invoice.totals, s.currency);
    forall k | 0 <= k < |invoice.taxGroups|
      ensures ParseTaxBreakdown(Seen(TaxNode(invoice.taxGroups[k]))) == GroupSaid(invoice.taxGroups[k])
    {
      GroupReadsBack(invoice.taxGroups[k]);
    }
  }

  /**
   Serialising and reading back is the identity: for one line or many, one group or many, every
   line, every VAT group and every total comes back in order, amounts at the scale they were written.
   */
  lemma DocumentReadsBack(invoice: ComputedInvoice, s: Surroundings)
    ensures ParseTransaction(Some(Seen(TransactionNode(invoice, s)))) == InvoiceSaid(invoice)
  {
    hide Seen, ParseLine, LineSaid, ParseTaxBreakdown, GroupSaid, ParseTotals, TotalsSaid, LineNode, SettlementNode;
    var lines := Map(LineNode, invoice.lines);
    var agreement := El(ApplicableHeaderTradeAgreement, s.agreement);
    var delivery := El(ApplicableHeaderTradeDelivery, s.delivery);
    var settlement := SettlementNode(invoice, s);
    NodeTags(invoice, s);
    assert lines + [agreement, delivery, settlement] == [] + lines + [agreement, delivery, settlement];
    RepeatedComeThrough(SupplyChainTradeTransaction, [], lines, [agreement, delivery, settlement], IncludedSupplyChainTradeLineItem);
    assert lines + [agreement, delivery, settlement] == (lines + [agreement, delivery]) + [settlement];
    LastComesThrough(SupplyChainTradeTransaction, lines + [agreement, delivery], settlement);
    forall k | 0 <= k < |lines| ensures ParseLine(Seen(lines[k])) == LineSaid(invoice.lines[k]) {
      LineReadsBack(invoice.lines[k]);
    }
    SettlementComesThrough(invoice, s);
  }

  lemma NodeTags(invoice: ComputedInvoice, s: Surroundings)
    ensures SettlementNode(invoice, s).tag == ApplicableHeaderTradeSettlement
    ensures forall line :: LineNode(line).tag == IncludedSupplyChainTradeLineItem
  {}
}
