/** The whole way: a draft's amounts to text, the text back to a tree, the tree to the reader and the checker. */
module CiiText {
  import opened Prelude
  import opened Draft
  import opened Compute
  import opened CiiTree
  import opened Cii
  import opened CiiDraft
  import opened Checks
  import opened XmlRender

  /** The document around the transaction; what its context and header hold is left open. */
  function DocumentNode(invoice: ComputedInvoice, s: Surroundings, context: seq<XmlNode>, header: seq<XmlNode>): XmlNode {
    El(CrossIndustryInvoice, [
      El(ExchangedDocumentContext, context),
      El(ExchangedDocument, header),
      TransactionNode(invoice, s)])
  }

  function DocumentText(n: Naming, invoice: ComputedInvoice, s: Surroundings, context: seq<XmlNode>, header: seq<XmlNode>): string {
    DECLARATION + "\n" + Render(n, DocumentNode(invoice, s, context, header))
  }

  /** How a text of XML 1.0 in UTF-8 begins. */
  const PROLOG := "<?xml version=\"1.0\" encoding=\"UTF-8\"?>\n"

  /** What a reader makes of a text: nothing unless it declares itself and its root is an invoice. */
  ghost function ReadText(n: Naming, text: string): Option<CiiInvoice> {
    if !(PROLOG <= text) then None
    else
      var read := ReadNode(n, text[|PROLOG|..]);
      if read.None? || read.value.0.tag != CrossIndustryInvoice then None
      else Some(ParseTransaction(Child(Some(Collapse(read.value.0)), SupplyChainTradeTransaction)))
  }

  lemma TransactionFound(invoice: ComputedInvoice, s: Surroundings, context: seq<XmlNode>, header: seq<XmlNode>)
    ensures Child(Some(Seen(DocumentNode(invoice, s, context, header))), SupplyChainTradeTransaction) ==
              Some(Seen(TransactionNode(invoice, s)))
  {
    var children := [El(ExchangedDocumentContext, context), El(ExchangedDocument, header), TransactionNode(invoice, s)];
    assert DocumentNode(invoice, s, context, header) == El(CrossIndustryInvoice, children);
    assert children[2].tag == SupplyChainTradeTransaction;
    hide Seen, Child;
    OnlyChild(CrossIndustryInvoice, children, 2);
  }

  lemma AfterDeclaration(body: string)
    ensures PROLOG <= DECLARATION + "\n" + body
    ensures (DECLARATION + "\n" + body)[|PROLOG|..] == body
  {}

  /** Written out as text and read back, every line, group and total is what it was, in order. */
  lemma TextReadsBack(n: Naming, invoice: ComputedInvoice, s: Surroundings, context: seq<XmlNode>, header: seq<XmlNode>)
    requires IsNaming(n)
    ensures ReadText(n, DocumentText(n, invoice, s, context, header)) == Some(InvoiceSaid(invoice))
  {
    var root := DocumentNode(invoice, s, context, header);
    assert Clean(root).tag == CrossIndustryInvoice;
    hide ReadNode, Render, Collapse, Clean, DocumentNode, TransactionNode, ParseTransaction, InvoiceSaid, Child;
    RenderReads(n, root);
    AfterDeclaration(Render(n, root));
    TransactionFound(invoice, s, context, header);
    DocumentReadsBack(invoice, s);
    assert Seen(root) == Collapse(Clean(root));
  }

  /** So the text of a draft's document tells its reader the draft's own lines, categories included, and the groups made of them. */
  lemma TextTellsTheDraft(n: Naming, draft: InvoiceDraft, s: Surroundings, context: seq<XmlNode>, header: seq<XmlNode>)
    requires IsNaming(n) && Computed(draft).Ok?
    ensures var read, groups := ReadText(n, DocumentText(n, Computed(draft).value, s, context, header)), Computed(draft).value.taxGroups;
            && read.Some? && |read.value.lines| == |draft.lines| && |read.value.taxBreakdown| == |groups|
            && (forall k :: 0 <= k < |draft.lines| ==> LineTells(read.value.lines[k], draft.lines[k], k))
            && (forall k :: 0 <= k < |groups| ==> GroupTells(read.value.taxBreakdown[k], groups[k]))
  {
    hide *;
    TextReadsBack(n, Computed(draft).value, s, context, header);
    DocumentReadsBack(Computed(draft).value, s);
    DocumentTellsTheDraft(draft, s);
    DocumentTellsTheGroups(draft, s);
  }

  /** Whatever draft computes, the text of its document passes every check of the independent checker. */
  lemma GeneratedTextPasses(n: Naming, draft: InvoiceDraft, s: Surroundings, context: seq<XmlNode>, header: seq<XmlNode>, profile: Option<Profile>)
    requires IsNaming(n) && Computed(draft).Ok?
    ensures var read := ReadText(n, DocumentText(n, Computed(draft).value, s, context, header));
            read.Some? && CheckArithmetic(read.value, profile).allPassed
  {
    hide *;
    var invoice := Computed(draft).value;
    TextReadsBack(n, invoice, s, context, header);
    DocumentReadsBack(invoice, s);
    GeneratedDocumentPasses(draft, s, profile);
  }
}
