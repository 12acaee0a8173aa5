/** The billing page: the invoice search, the stamped and draft counts, the
    new-invoice form (whose RFC field is stored upper-cased) and the row
    actions. The status and period selects of the page are uncontrolled
    (`defaultValue` only), so nothing in the listing depends on them:
    `FilterInvoices` takes only the search text. */
module Billing {
  import opened Text
  import opened Listing

  datatype Invoice = Invoice(
    id: string, series: string, folio: string, customer: string, customerRFC: string,
    amount: real, tax: real, total: real, status: string, date: string,
    uuid: Option<string>, paymentMethod: string)

  predicate InvoiceMatches(inv: Invoice, term: string)
  {
    FoldContains(inv.customer, term) || FoldContains(inv.id, term) || FoldContains(inv.customerRFC, term)
  }

  /** `filteredInvoices`. */
  function FilterInvoices(invoices: seq<Invoice>, term: string): (r: seq<Invoice>)
    ensures forall inv :: inv in r <==>
              && inv in invoices
              && (FoldContains(inv.customer, term) || FoldContains(inv.id, term) || FoldContains(inv.customerRFC, term))
    ensures IsSubseq(r, invoices)
    ensures |r| == Count(invoices, (inv: Invoice) => InvoiceMatches(inv, term))
    ensures (forall inv :: inv in invoices ==> InvoiceMatches(inv, term)) ==> r == invoices
  {
    Filter(invoices, (inv: Invoice) => InvoiceMatches(inv, term))
  }

  /** An empty search lists every invoice. */
  lemma EmptySearchListsEveryInvoice(invoices: seq<Invoice>)
    ensures FilterInvoices(invoices, "") == invoices
  {
    forall inv | inv in invoices
      ensures InvoiceMatches(inv, "")
    {
      FoldContainsEmpty(inv.customer);
    }
  }

  /** Searching an RFC in capitals finds the same invoices as in lower case. */
  lemma SearchIgnoresTermCase(invoices: seq<Invoice>, term: string)
    ensures FilterInvoices(invoices, Upper(term)) == FilterInvoices(invoices, term)
  {
    LowerOfUpper(term);
    assert forall inv :: InvoiceMatches(inv, Upper(term)) == InvoiceMatches(inv, term);
    FilterSamePredicate(invoices, Upper(term), term);
  }

  lemma {:induction false} FilterSamePredicate(invoices: seq<Invoice>, t1: string, t2: string)
    requires forall inv :: InvoiceMatches(inv, t1) == InvoiceMatches(inv, t2)
    ensures FilterInvoices(invoices, t1) == FilterInvoices(invoices, t2)
  {
    if |invoices| > 0 {
      FilterSamePredicate(invoices[1..], t1, t2);
    }
  }

  /** The filter bar: the search box and the status and period selects.
      The selects start on "all" and "today" but nothing reads them back. */
  datatype BillingFilters = BillingFilters(search: string, status: string, period: string)

  /** The rows of the invoice table. */
  function ListedInvoices(invoices: seq<Invoice>, f: BillingFilters): (r: seq<Invoice>)
    ensures forall inv :: inv in r <==> inv in invoices && InvoiceMatches(inv, f.search)
    ensures IsSubseq(r, invoices)
    ensures |r| == Count(invoices, (inv: Invoice) => InvoiceMatches(inv, f.search))
  {
    FilterInvoices(invoices, f.search)
  }

  /** Choosing another status or period leaves the table as it was: with
      "Timbradas" selected, a matching draft is still listed. */
  lemma SelectsDoNotFilter(invoices: seq<Invoice>, f: BillingFilters, status: string, period: string)
    ensures ListedInvoices(invoices, f.(status := status, period := period)) == ListedInvoices(invoices, f)
  {
  }

  function StampedCount(invoices: seq<Invoice>): nat
  {
    Count(invoices, (inv: Invoice) => inv.status == "timbrada")
  }

  function DraftCount(invoices: seq<Invoice>): nat
  {
    Count(invoices, (inv: Invoice) => inv.status == "borrador")
  }

  /** The "Timbradas" and "Borradores" cards never exceed the invoice count. */
  lemma StatusCountsBounded(invoices: seq<Invoice>)
    ensures StampedCount(invoices) + DraftCount(invoices) <= |invoices|
  {
    CountDisjoint(invoices, (inv: Invoice) => inv.status == "timbrada", (inv: Invoice) => inv.status == "borrador");
  }

  datatype FormItem = FormItem(product: string, quantity: int, price: real, total: real)

  datatype InvoiceForm = InvoiceForm(customer: string, customerRFC: string, paymentMethod: string, items: seq<FormItem>)

  /** The RFC input's `maxLength`. */
  const RfcMaxLength: nat := 13

  /** The RFC input's change handler: the form keeps the typed text, cut to
      the input's thirteen characters, upper-cased. */
  function SetCustomerRfc(form: InvoiceForm, typed: string): (r: InvoiceForm)
    ensures r.customer == form.customer && r.paymentMethod == form.paymentMethod && r.items == form.items
    ensures |r.customerRFC| == if |typed| <= RfcMaxLength then |typed| else RfcMaxLength
    ensures forall i :: 0 <= i < |r.customerRFC| ==> !IsLowerAscii(r.customerRFC[i])
    ensures Lower(r.customerRFC) == Lower(typed[..|r.customerRFC|])
  {
    var kept := if |typed| <= RfcMaxLength then typed else typed[..RfcMaxLength];
    LowerOfUpper(kept);
    form.(customerRFC := Upper(kept))
  }

  /** Typing the stored RFC again changes nothing. */
  lemma RfcEditIdempotent(form: InvoiceForm, typed: string)
    ensures SetCustomerRfc(SetCustomerRfc(form, typed), SetCustomerRfc(form, typed).customerRFC)
            == SetCustomerRfc(form, typed)
  {
    var kept := if |typed| <= RfcMaxLength then typed else typed[..RfcMaxLength];
    UpperIdempotent(kept);
  }

  /** The parts of the page state the dialog touches. */
  datatype BillingPage = BillingPage(search: string, dialogOpen: bool, form: InvoiceForm)

  /** "Crear Factura", like "Cancelar", only closes the dialog. No invoice is
      added and the form keeps what was typed, so reopening the dialog shows it
      again. */
  function CreateInvoice(page: BillingPage): (r: BillingPage)
    ensures !r.dialogOpen
    ensures r.search == page.search && r.form == page.form
  {
    page.(dialogOpen := false)
  }

  datatype InvoiceAction = View | Download | Print | Send

  /** The buttons of an invoice row. */
  function RowActions(inv: Invoice): (r: seq<InvoiceAction>)
    ensures |r| == if inv.status == "timbrada" then 4 else 3
    ensures r[..3] == [View, Download, Print]
    ensures Send in r <==> inv.status == "timbrada"
  {
    [View, Download, Print] + (if inv.status == "timbrada" then [Send] else [])
  }

  /** Over the whole invoice list, the rows offering "send" are exactly those
      the "Timbradas" card counts. The table shows the whole list only with an
      empty search; see `ListedSendRowsWithinCard`. */
  lemma SendRowsAreStamped(invoices: seq<Invoice>)
    ensures Count(invoices, (inv: Invoice) => Send in RowActions(inv)) == StampedCount(invoices)
  {
    CountCongruent(invoices, (inv: Invoice) => Send in RowActions(inv), (inv: Invoice) => inv.status == "timbrada");
  }

  /** The table renders the searched rows while the "Timbradas" card counts
      every invoice: the listed "send" buttons never outnumber the card, and
      match it with an empty search. */
  lemma ListedSendRowsWithinCard(invoices: seq<Invoice>, f: BillingFilters)
    ensures Count(ListedInvoices(invoices, f), (inv: Invoice) => Send in RowActions(inv)) <= StampedCount(invoices)
    ensures f.search == "" ==>
              Count(ListedInvoices(invoices, f), (inv: Invoice) => Send in RowActions(inv)) == StampedCount(invoices)
  {
    SendRowsAreStamped(invoices);
    CountOfFilter(invoices, (inv: Invoice) => InvoiceMatches(inv, f.search), (inv: Invoice) => Send in RowActions(inv));
    if f.search == "" {
      EmptySearchListsEveryInvoice(invoices);
    }
  }
}
