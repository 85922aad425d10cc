/** What a reader of the document learns about the draft it was made from. */
module CiiDraft {
  import opened Prelude
  import opened Money
  import opened DecimalText
  import opened Draft
  import opened Compute
  import opened CiiTree
  import opened Cii
  import opened Invoicing

  /** A line as read says what the draft line at `position` says. */
  ghost predicate LineTells(read: CiiLine, line: DraftLine, position: nat) {
    && read.id.Some? && IsNumberText(read.id.value, position + 1)
    && read.name == Said(line.name) && read.unitCode == Said(line.unitCode)
    && read.quantity.Some? && read.quantity == ParseDecimal(Some(line.quantity))
    && read.netUnitPrice.Some? && read.netUnitPrice == ParseDecimal(Some(line.unitPrice))
    && read.netAmount.Some? && IsProduct(read.netAmount.value, read.quantity.value, read.netUnitPrice.value)
    && read.vatCategoryCode == CategorySaid(line.vatCategory)
    && (!line.vatCategory.Unlisted? ==> CategoryNamed(read.vatCategoryCode.value) == line.vatCategory)
    && read.vatRatePercent.Some? && IsRateOf(read.vatRatePercent.value, line.vatRatePercent)
  }

  /** The rate a text states, to the nearest cent. */
  ghost predicate IsRateOf(rate: Decimal, text: string) {
    ParseDecimal(Some(text)).Some? && IsNearestCent(rate, Value(ParseDecimal(Some(text)).value))
  }

  lemma NumberIsRead(text: string, n: nat)
    requires IsNumberText(text, n)
    ensures Said(text) == Some(text)
  {
    forall k | 0 <= k < |text| ensures IsDigit(text[k]) {}
    assert IsTrimmed(text);
    hide Said, NumberOf;
    PlainIsSaid(text);
  }

  lemma LineIsTold(line: DraftLine, position: nat, computed: ComputedLine)
    requires LineMeans(line, position, computed)
    ensures LineTells(LineSaid(computed), line, position)
  {
    NumberIsRead(computed.lineId, position + 1);
    CategoryIsRead(line.vatCategory);
    RescaledIsNearestCent(computed.vatRatePercent);
    assert computed.netAmount.scale == 2;
    Settled(computed.netAmount);
    hide Said, CategorySaid, CategoryNamed, ParseDecimal, Rescale, Value, IsNumberText, IsNearestCent, IsProduct;
  }

  lemma Settled(d: Decimal)
    requires d.scale == 2
    ensures Rescale(d, MONETARY_SCALE) == d
  {}

  /** Reading back the document of a draft gives, line by line, what the draft says. */
  lemma DocumentTellsTheDraft(draft: InvoiceDraft, s: Surroundings)
    requires Computed(draft).Ok?
    ensures var read := ParseTransaction(Some(Seen(TransactionNode(Computed(draft).value, s))));
            && |read.lines| == |draft.lines|
            && forall k :: 0 <= k < |draft.lines| ==> LineTells(read.lines[k], draft.lines[k], k)
  {
    hide Computed, ParseTransaction, Seen, TransactionNode, LineTells, LineMeans, LineSaid;
    var invoice := Computed(draft).value;
    DocumentReadsBack(invoice, s);
    LinesAreMeant(draft);
    forall k | 0 <= k < |draft.lines| ensures LineTells(LineSaid(invoice.lines[k]), draft.lines[k], k) {
      LineIsTold(draft.lines[k], k, invoice.lines[k]);
    }
  }

  /** A VAT group as read: its own category under its own code, its amounts, and its reason where one is stated. */
  ghost predicate GroupTells(read: CiiTaxBreakdown, group: ComputedTaxGroup) {
    && read.categoryCode == CategorySaid(group.categoryCode)
    && (!group.categoryCode.Unlisted? ==> CategoryNamed(read.categoryCode.value) == group.categoryCode)
    && read.basisAmount == Some(group.basisAmount) && read.calculatedAmount == Some(group.calculatedAmount)
    && read.ratePercent == Some(group.ratePercent)
    && read.exemptionReason == match group.exemptionReason case None => None case Some(text) => Said(text)
  }

  lemma NothingIsSaid()
    ensures Said("") == None
  {}

  lemma GroupIsTold(lines: seq<ComputedLine>, group: ComputedTaxGroup)
    requires GroupMeans(lines, group)
    ensures GroupTells(GroupSaid(group), group)
  {
    NothingIsSaid();
    CategoryIsRead(group.categoryCode);
    Settled(group.basisAmount);
    Settled(group.calculatedAmount);
    Settled(group.ratePercent);
    hide Said, CategorySaid, CategoryNamed, Rescale, Value, Belonging, ReasonMeans;
  }

  /** And group by group what was computed from it. */
  lemma DocumentTellsTheGroups(draft: InvoiceDraft, s: Surroundings)
    requires Computed(draft).Ok?
    ensures var read, invoice := ParseTransaction(Some(Seen(TransactionNode(Computed(draft).value, s)))), Computed(draft).value;
            && |read.taxBreakdown| == |invoice.taxGroups|
            && forall k :: 0 <= k < |invoice.taxGroups| ==> GroupTells(read.taxBreakdown[k], invoice.taxGroups[k])
  {
    hide Computed, ParseTransaction, Seen, TransactionNode, GroupTells, GroupMeans, GroupSaid;
    var invoice := Computed(draft).value;
    DocumentReadsBack(invoice, s);
    GroupsAreMeant(draft);
    forall k | 0 <= k < |invoice.taxGroups| ensures GroupTells(GroupSaid(invoice.taxGroups[k]), invoice.taxGroups[k]) {
      GroupIsTold(invoice.lines, invoice.taxGroups[k]);
    }
  }
}
