/** The draft of an invoice, amounts still as typed. */
module Draft {
  import opened Prelude

  /** The category codes the product issues, and any other string found in that field. */
  datatype VatCategory = S | Z | E | AE | K | G | Unlisted(name: string)

  /** Categories that charge no VAT, and whose rate must be zero. */
  predicate ZeroRated(category: VatCategory) {
    category == Z || category == E || category == AE || category == K || category == G
  }

  /** Categories that must state why no VAT is charged; zero-rated `Z` must not. */
  predicate ReasonRequired(category: VatCategory) {
    category == E || category == AE || category == K || category == G
  }

  datatype DraftLine = DraftLine(
    name: string, description: Option<string>, unitCode: string, quantity: string, unitPrice: string,
    vatCategory: VatCategory, vatRatePercent: string, exemptionReason: Option<string>)

  datatype InvoiceDraft = InvoiceDraft(
    lines: seq<DraftLine>, prepaidAmount: Option<string>, dueDate: Option<string>, paymentTerms: Option<string>,
    deliveryCountryCode: Option<string>)

  /** Present and not the empty string. */
  predicate Stated(text: Option<string>) {
    text.Some? && text.value != ""
  }
}
