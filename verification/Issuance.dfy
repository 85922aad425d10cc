/** Issuing an invoice: one transaction of rows around writes to the content-addressed store. */
module Issuance {
  import opened Prelude
  import opened Archive

  type ClientId = nat

  /** What an issued invoice was made of: its number is unique per client. */
  datatype Invoice = Invoice(tenant: TenantId, client: ClientId, number: string, pdf: Bytes, xml: Bytes)

  /** `Interrupted` is a crash or a failing statement: the transaction rolls back, the store does not. */
  datatype IssueError = NumberTaken | StoreRefused | Interrupted

  /** Where an issue is cut short, if it is. */
  datatype Interruption = Never | BeforeSealing | BetweenSeals | BeforeCommit

  function PdfRequest(tenant: TenantId, i: InvoiceId, bytes: Bytes): Request {
    Request(tenant, Some(i), bytes, "facturx-pdf", "pdf")
  }

  function XmlRequest(tenant: TenantId, i: InvoiceId, bytes: Bytes): Request {
    Request(tenant, Some(i), bytes, "cii-xml", "xml")
  }

  /** The row a seal adds. */
  function RowOf(h: Digest, r: Request): Entry {
    Entry(r.tenant, r.invoice, h(r.bytes), StorageKey(h(r.bytes), r.extension), r.kind, |r.bytes|, r.bytes)
  }

  /** The table has this content under this invoice already. */
  ghost predicate Known(h: Digest, r: Request, view: map<EntryId, Entry>) {
    exists k :: k in view && IdentityOf(view[k]) == Identity(r.tenant, r.invoice, h(r.bytes))
  }

  /** The rows a new invoice gets: its PDF's, and its XML's unless the two are one content. */
  ghost predicate TwoRowsAdded(h: Digest, before: map<EntryId, Entry>, after: map<EntryId, Entry>, tenant: TenantId, i: InvoiceId,
                               pdf: Bytes, xml: Bytes, pdfId: EntryId, xmlId: EntryId) {
    var pdfRow := Entry(tenant, Some(i), h(pdf), StorageKey(h(pdf), "pdf"), "facturx-pdf", |pdf|, pdf);
    var xmlRow := Entry(tenant, Some(i), h(xml), StorageKey(h(xml), "xml"), "cii-xml", |xml|, xml);
    after == if h(pdf) == h(xml) then before[pdfId := pdfRow] else before[pdfId := pdfRow][xmlId := xmlRow]
  }

  /** A row of the archive that proves `bytes` for invoice `i`, its content in the store. */
  ghost predicate Proves(h: Digest, blobs: map<StorageKey, Bytes>, entries: map<EntryId, Entry>, id: EntryId,
                         tenant: TenantId, i: InvoiceId, bytes: Bytes) {
    && id in entries
    && IdentityOf(entries[id]) == Identity(tenant, Some(i), h(bytes))
    && entries[id].storageKey in blobs
    && h(blobs[entries[id].storageKey]) == h(bytes)
  }

  ghost predicate IsProven(h: Digest, blobs: map<StorageKey, Bytes>, entries: map<EntryId, Entry>, tenant: TenantId, i: InvoiceId, bytes: Bytes) {
    exists id :: Proves(h, blobs, entries, id, tenant, i, bytes)
  }

  class IssuanceService {
    const h: Digest
    var blobs: map<StorageKey, Bytes>
    var invoices: map<InvoiceId, Invoice>
    var entries: map<EntryId, Entry>

    /** Every invoice is provable in both renditions, numbers are unique, rows and blobs are sound. */
    ghost predicate Valid()
      reads this
    {
      && AllProven(h, blobs, entries, invoices)
      && NumbersUnique(invoices)
      && Attached(entries, invoices)
      && EntriesOk(h, blobs, entries)
    }

    constructor (h: Digest)
      ensures Valid() && this.h == h && invoices == map[] && entries == map[] && blobs == map[]
    {
      this.h := h;
      blobs, invoices, entries := map[], map[], map[];
    }

    /** Seals inside a transaction: the bytes go to the store at once, the row to the transaction's own view. */
    method SealIn(r: Request, id: EntryId, view: map<EntryId, Entry>) returns (sealed: Option<map<EntryId, Entry>>)
      requires id !in view && r.invoice.Some? && EntriesOk(h, blobs, view)
      modifies this`blobs
      ensures Kept(old(blobs), blobs)
      ensures var key := StorageKey(h(r.bytes), r.extension); sealed.None? <==> key in old(blobs) && old(blobs)[key] != r.bytes
      ensures sealed.Some? ==>
                && EntriesOk(h, blobs, sealed.value)
                && IsProven(h, blobs, sealed.value, r.tenant, r.invoice.value, r.bytes)
                && (forall k :: k in view ==> k in sealed.value && sealed.value[k] == view[k])
                && (forall k :: k in sealed.value && k !in view ==> k == id && sealed.value[k] == RowOf(h, r))
                && (id in sealed.value <==> !Known(h, r, view))
    {
      var key := KeyFor(h, r);
      if key in blobs && blobs[key] != r.bytes {
        return None;
      }
      blobs := blobs[key := r.bytes];
      var identity := Identity(r.tenant, r.invoice, h(r.bytes));
      if existing :| existing in view && IdentityOf(view[existing]) == identity {
        assert Proves(h, blobs, view, existing, r.tenant, r.invoice.value, r.bytes);
        return Some(view);
      }
      var next := view[id := EntryFor(h, r)];
      assert Proves(h, blobs, next, id, r.tenant, r.invoice.value, r.bytes);
      sealed := Some(next);
    }

    /**
     The transaction, row by row. Whatever the outcome, the service stays `Valid`: an invoice exists
     only with both its renditions sealed, and an interrupted issue leaves at most unreferenced bytes.
     */
    method Persist(i: InvoiceId, tenant: TenantId, client: ClientId, number: string, pdf: Bytes, xml: Bytes,
                   pdfId: EntryId, xmlId: EntryId, interruption: Interruption) returns (outcome: Result<(), IssueError>)
      requires Valid() && i !in invoices && pdfId !in entries && xmlId !in entries && pdfId != xmlId
      modifies this
      ensures Valid() && Kept(old(blobs), blobs)
      ensures NumberUsed(old(invoices), client, number) ==> outcome == Err(NumberTaken) && blobs == old(blobs)
      ensures outcome.Err? ==> invoices == old(invoices) && entries == old(entries)
      ensures outcome.Ok? ==> interruption == Never && invoices == old(invoices)[i := Invoice(tenant, client, number, pdf, xml)]
      ensures outcome.Ok? ==> TwoRowsAdded(h, old(entries), entries, tenant, i, pdf, xml, pdfId, xmlId)
    {
      hide EntriesOk, AllProven, NumbersUnique, Attached, Kept, IsProven, NumberUsed, Known, TwoRowsAdded;
      if NumberUsed(invoices, client, number) {
        KeptAsIs(blobs);
        return Err(NumberTaken);
      }
      var invoice := Invoice(tenant, client, number, pdf, xml);
      if interruption == BeforeSealing {
        KeptAsIs(blobs);
        return Err(Interrupted);
      }
      ghost var start := blobs;
      var withPdf := SealIn(PdfRequest(tenant, i, pdf), pdfId, entries);
      StateSurvives(h, start, blobs, entries, invoices);
      if withPdf.None? {
        return Err(StoreRefused);
      }
      if interruption == BetweenSeals {
        return Err(Interrupted);
      }
      ghost var midway := blobs;
      var withXml := SealIn(XmlRequest(tenant, i, xml), xmlId, withPdf.value);
      KeptTwice(start, midway, blobs);
      StateSurvives(h, start, blobs, entries, invoices);
      if withXml.None? {
        return Err(StoreRefused);
      }
      if interruption == BeforeCommit {
        return Err(Interrupted);
      }
      CommitIsSound(h, start, midway, blobs, entries, withPdf.value, withXml.value, invoices, i, invoice);
      RowsAreAdded(h, entries, withPdf.value, withXml.value, invoices, tenant, i, pdf, xml, pdfId, xmlId);
      invoices, entries := invoices[i := invoice], withXml.value;
      outcome := Ok(());
    }
  }

  ghost predicate AllProven(h: Digest, blobs: map<StorageKey, Bytes>, entries: map<EntryId, Entry>, invoices: map<InvoiceId, Invoice>) {
    forall i :: i in invoices ==>
      && IsProven(h, blobs, entries, invoices[i].tenant, i, invoices[i].pdf)
      && IsProven(h, blobs, entries, invoices[i].tenant, i, invoices[i].xml)
  }

  predicate NumberUsed(invoices: map<InvoiceId, Invoice>, client: ClientId, number: string) {
    exists j :: j in invoices && invoices[j].client == client && invoices[j].number == number
  }

  ghost predicate NumbersUnique(invoices: map<InvoiceId, Invoice>) {
    forall i, j :: (i in invoices && j in invoices && invoices[i].client == invoices[j].client && invoices[i].number == invoices[j].number) ==> i == j
  }

  /** No row of the archive is left without its invoice. */
  ghost predicate Attached(entries: map<EntryId, Entry>, invoices: map<InvoiceId, Invoice>) {
    forall id :: id in entries ==> entries[id].invoice.Some? && entries[id].invoice.value in invoices
  }

  /** Every row points at a blob that hashes as the row says. */
  ghost predicate EntriesOk(h: Digest, blobs: map<StorageKey, Bytes>, entries: map<EntryId, Entry>) {
    forall id :: id in entries ==> entries[id].storageKey in blobs && h(blobs[entries[id].storageKey]) == entries[id].contentHash
  }

  /** Blobs are only ever added. */
  ghost predicate Kept(before: map<StorageKey, Bytes>, after: map<StorageKey, Bytes>) {
    forall key :: key in before ==> key in after && after[key] == before[key]
  }

  lemma ProofSurvives(h: Digest, blobs: map<StorageKey, Bytes>, after: map<StorageKey, Bytes>,
                      entries: map<EntryId, Entry>, more: map<EntryId, Entry>, tenant: TenantId, i: InvoiceId, bytes: Bytes)
    requires Kept(blobs, after) && (forall id :: id in entries ==> id in more && more[id] == entries[id])
    requires IsProven(h, blobs, entries, tenant, i, bytes)
    ensures IsProven(h, after, more, tenant, i, bytes)
  {
    var id :| Proves(h, blobs, entries, id, tenant, i, bytes);
    assert Proves(h, after, more, id, tenant, i, bytes);
  }

  lemma KeptAsIs(blobs: map<StorageKey, Bytes>)
    ensures Kept(blobs, blobs)
  {}

  lemma KeptTwice(a: map<StorageKey, Bytes>, b: map<StorageKey, Bytes>, c: map<StorageKey, Bytes>)
    requires Kept(a, b) && Kept(b, c)
    ensures Kept(a, c)
  {}

  lemma ProofsSurvive(h: Digest, blobs: map<StorageKey, Bytes>, after: map<StorageKey, Bytes>,
                      entries: map<EntryId, Entry>, more: map<EntryId, Entry>, invoices: map<InvoiceId, Invoice>)
    requires Kept(blobs, after) && (forall id :: id in entries ==> id in more && more[id] == entries[id])
    requires AllProven(h, blobs, entries, invoices)
    ensures AllProven(h, after, more, invoices)
  {
    hide IsProven;
    forall i | i in invoices
      ensures IsProven(h, after, more, invoices[i].tenant, i, invoices[i].pdf) && IsProven(h, after, more, invoices[i].tenant, i, invoices[i].xml)
    {
      ProofSurvives(h, blobs, after, entries, more, invoices[i].tenant, i, invoices[i].pdf);
      ProofSurvives(h, blobs, after, entries, more, invoices[i].tenant, i, invoices[i].xml);
    }
  }

  /** More bytes in the store disturb nothing. */
  lemma StateSurvives(h: Digest, blobs: map<StorageKey, Bytes>, after: map<StorageKey, Bytes>,
                      entries: map<EntryId, Entry>, invoices: map<InvoiceId, Invoice>)
    requires Kept(blobs, after) && EntriesOk(h, blobs, entries) && AllProven(h, blobs, entries, invoices)
    ensures EntriesOk(h, after, entries) && AllProven(h, after, entries, invoices)
  {
    ProofsSurvive(h, blobs, after, entries, entries, invoices);
  }

  lemma RowsAreAdded(h: Digest, entries: map<EntryId, Entry>, withPdf: map<EntryId, Entry>, withXml: map<EntryId, Entry>,
                     invoices: map<InvoiceId, Invoice>, tenant: TenantId, i: InvoiceId, pdf: Bytes, xml: Bytes, pdfId: EntryId, xmlId: EntryId)
    requires Attached(entries, invoices) && i !in invoices && pdfId != xmlId && pdfId !in entries && xmlId !in entries
    requires forall k :: k in entries ==> k in withPdf && withPdf[k] == entries[k]
    requires forall k :: k in withPdf ==> k in withXml && withXml[k] == withPdf[k]
    requires forall k :: k in withPdf && k !in entries ==> k == pdfId && withPdf[k] == RowOf(h, PdfRequest(tenant, i, pdf))
    requires forall k :: k in withXml && k !in withPdf ==> k == xmlId && withXml[k] == RowOf(h, XmlRequest(tenant, i, xml))
    requires pdfId in withPdf <==> !Known(h, PdfRequest(tenant, i, pdf), entries)
    requires xmlId in withXml <==> !Known(h, XmlRequest(tenant, i, xml), withPdf)
    ensures TwoRowsAdded(h, entries, withXml, tenant, i, pdf, xml, pdfId, xmlId)
  {
    assert pdfId in withPdf;
    if h(pdf) == h(xml) {
      assert IdentityOf(withPdf[pdfId]) == Identity(tenant, Some(i), h(xml));
    } else {
      assert forall k :: k in withPdf ==> IdentityOf(withPdf[k]) != Identity(tenant, Some(i), h(xml));
    }
  }

  /** The committed state: the new invoice is proven twice over, the others as before. */
  lemma CommitIsSound(h: Digest, start: map<StorageKey, Bytes>, midway: map<StorageKey, Bytes>, blobs: map<StorageKey, Bytes>,
                      entries: map<EntryId, Entry>, withPdf: map<EntryId, Entry>, withXml: map<EntryId, Entry>,
                      invoices: map<InvoiceId, Invoice>, i: InvoiceId, invoice: Invoice)
    requires Kept(start, blobs) && Kept(midway, blobs) && AllProven(h, start, entries, invoices)
    requires NumbersUnique(invoices) && Attached(entries, invoices)
    requires i !in invoices && !NumberUsed(invoices, invoice.client, invoice.number)
    requires forall k :: k in entries ==> k in withPdf && withPdf[k] == entries[k]
    requires forall k :: k in withPdf ==> k in withXml && withXml[k] == withPdf[k]
    requires forall k :: k in withXml && k !in entries ==> withXml[k].invoice == Some(i)
    requires IsProven(h, midway, withPdf, invoice.tenant, i, invoice.pdf) && IsProven(h, blobs, withXml, invoice.tenant, i, invoice.xml)
    ensures AllProven(h, blobs, withXml, invoices[i := invoice]) && NumbersUnique(invoices[i := invoice]) && Attached(withXml, invoices[i := invoice])
  {
    ProofsSurvive(h, start, blobs, entries, withXml, invoices);
    ProofSurvives(h, midway, blobs, withPdf, withXml, invoice.tenant, i, invoice.pdf);
    hide IsProven, Kept;
  }
}
