/** The invoice handlers: creation (number generation, client taken from the
    project, default status, then the pre-save hook) and update (a verbatim
    merge, followed by the hook only when the patch touches the ledger). */
module Invoices {
  import opened Common
  import opened InvoiceSchema
  import Projects

  /** A UTC calendar date, as the first ten characters of `toISOString()` give it. */
  datatype CalendarDate = CalendarDate(year: int, month: int, day: int)

  predicate ValidDate(d: CalendarDate) {
    0 <= d.year <= 9999 && 1 <= d.month <= 12 && 1 <= d.day <= 31
  }

  function Pow10(n: nat): (p: nat)
    ensures p >= 1
  {
    if n == 0 then 1 else 10 * Pow10(n - 1)
  }

  predicate IsDigit(c: char) {
    '0' <= c <= '9'
  }

  predicate AllDigits(s: string) {
    forall k :: 0 <= k < |s| ==> IsDigit(s[k])
  }

  function DigitChar(d: int): (c: char)
    requires 0 <= d <= 9
    ensures IsDigit(c)
  {
    (48 + d) as char
  }

  /** `n` in decimal, left-padded with zeros to exactly `width` digits. */
  function Padded(n: nat, width: nat): (s: string)
    requires n < Pow10(width)
    ensures |s| == width && AllDigits(s)
  {
    if width == 0 then "" else Padded(n / 10, width - 1) + [DigitChar(n % 10)]
  }

  /** The decimal value of a string of digits. */
  function DigitsValue(s: string): nat
    requires AllDigits(s)
  {
    if |s| == 0 then 0 else 10 * DigitsValue(s[..|s| - 1]) + (s[|s| - 1] as int - 48)
  }

  /** `YYYYMMDD`: the ISO date with its dashes removed. */
  function DateStamp(d: CalendarDate): (s: string)
    requires ValidDate(d)
    ensures |s| == 8
  {
    Padded(d.year, 4) + Padded(d.month, 2) + Padded(d.day, 2)
  }

  /** `Math.floor(1000 + Math.random() * 9000)` for a draw `u` in [0, 1). */
  function RandomSuffix(u: real): (n: int)
    requires 0.0 <= u < 1.0
    ensures 1000 <= n <= 9999
  {
    (1000.0 + u * 9000.0).Floor
  }

  /** `INV-<YYYYMMDD>-<NNNN>`. */
  function InvoiceNumber(d: CalendarDate, n: int): (s: string)
    requires ValidDate(d) && 1000 <= n <= 9999
    ensures |s| == 17
    ensures s[..4] == "INV-" && s[12] == '-'
    ensures AllDigits(s[4..12]) && AllDigits(s[13..])
  {
    "INV-" + DateStamp(d) + "-" + Padded(n, 4)
  }

  /** Reads an invoice number back into its date and its random suffix. */
  function ParseInvoiceNumber(s: string): Option<(CalendarDate, int)> {
    if |s| == 17 && s[..4] == "INV-" && s[12] == '-'
       && AllDigits(s[4..8]) && AllDigits(s[8..10]) && AllDigits(s[10..12]) && AllDigits(s[13..17])
    then Some((CalendarDate(DigitsValue(s[4..8]), DigitsValue(s[8..10]), DigitsValue(s[10..12])),
               DigitsValue(s[13..17])))
    else None
  }

  lemma {:induction false} PaddedValue(n: nat, width: nat)
    requires n < Pow10(width)
    ensures DigitsValue(Padded(n, width)) == n
  {
    if width > 0 {
      var s := Padded(n, width);
      assert s[..|s| - 1] == Padded(n / 10, width - 1);
      PaddedValue(n / 10, width - 1);
    }
  }

  /** The number carries its date and suffix recoverably. */
  lemma InvoiceNumberRoundTrip(d: CalendarDate, n: int)
    requires ValidDate(d) && 1000 <= n <= 9999
    ensures ParseInvoiceNumber(InvoiceNumber(d, n)) == Some((d, n))
  {
    var s := InvoiceNumber(d, n);
    assert s[4..8] == Padded(d.year, 4);
    assert s[8..10] == Padded(d.month, 2);
    assert s[10..12] == Padded(d.day, 2);
    assert s[13..17] == Padded(n, 4);
    PaddedValue(d.year, 4);
    PaddedValue(d.month, 2);
    PaddedValue(d.day, 2);
    PaddedValue(n, 4);
  }

  /** Two invoices numbered on different days, or with different suffixes,
      get different numbers; the same day and suffix collide. */
  lemma InvoiceNumberInjective(d1: CalendarDate, n1: int, d2: CalendarDate, n2: int)
    requires ValidDate(d1) && 1000 <= n1 <= 9999
    requires ValidDate(d2) && 1000 <= n2 <= 9999
    ensures InvoiceNumber(d1, n1) == InvoiceNumber(d2, n2) <==> d1 == d2 && n1 == n2
  {
    InvoiceNumberRoundTrip(d1, n1);
    InvoiceNumberRoundTrip(d2, n2);
  }

  /** A line of a request body; a missing quantity takes the schema default. */
  datatype ItemInput = ItemInput(description: string, quantity: Option<int>, unitPrice: int, amount: Option<int>)

  function CastItem(input: ItemInput): LineItem {
    LineItem(input.description, input.quantity.GetOr(DefaultQuantity), input.unitPrice, input.amount)
  }

  function CastItems(inputs: seq<ItemInput>): (items: seq<LineItem>)
    ensures |items| == |inputs|
  {
    seq(|inputs|, k requires 0 <= k < |inputs| => CastItem(inputs[k]))
  }

  /** The body of a create request. `client` and `amountPaid` may be present
      but the handler never reads them. */
  datatype InvoiceRequest = InvoiceRequest(
    project: Id,
    dueDate: Option<Time>,
    items: seq<ItemInput>,
    tax: Option<int>,
    discount: Option<int>,
    notes: Option<string>,
    status: Option<InvoiceStatus>,
    gstNumber: Option<string>,
    client: Option<Id>,
    amountPaid: Option<int>)

  /** The document handed to `Invoice.create`, before its pre-save hook runs
      (sub-total, total and balance are not yet set; 0 stands for unset). */
  function Unsaved(req: InvoiceRequest, number: string, client: Id, issuer: Id, now: Time): Invoice
    requires req.dueDate.Some?
  {
    Invoice(number, req.project, client, issuer, now, req.dueDate.value, CastItems(req.items),
            0, req.tax.GetOr(DefaultTax), req.discount.GetOr(DefaultDiscount), 0,
            DefaultAmountPaid, 0, req.status.GetOr(DefaultStatus), req.notes,
            req.gstNumber.GetOr(DefaultGstNumber))
  }

  /** At creation nothing is paid, so the hook never derives Paid or
      Partially Paid: a new invoice keeps the requested status, or Draft. */
  lemma CreatedStatusIsRequested(req: InvoiceRequest, number: string, client: Id, issuer: Id, now: Time)
    requires req.dueDate.Some?
    ensures Recalculated(Unsaved(req, number, client, issuer, now)).status == req.status.GetOr(Draft)
    ensures Recalculated(Unsaved(req, number, client, issuer, now)).balanceDue
         == Recalculated(Unsaved(req, number, client, issuer, now)).totalAmount
  {
  }

  /** The body of an update request: each present field is written as given. */
  datatype InvoicePatch = InvoicePatch(
    invoiceNumber: Option<string>,
    issuedBy: Option<Id>,
    date: Option<Time>,
    items: Option<seq<ItemInput>>,
    subTotal: Option<int>,
    tax: Option<int>,
    discount: Option<int>,
    totalAmount: Option<int>,
    amountPaid: Option<int>,
    balanceDue: Option<int>,
    status: Option<InvoiceStatus>,
    dueDate: Option<Time>,
    notes: Option<string>,
    gstNumber: Option<string>,
    project: Option<Id>,
    client: Option<Id>)

  /** The update takes the save path exactly when it names one of these four. */
  predicate TouchesLedger(patch: InvoicePatch) {
    patch.items.Some? || patch.tax.Some? || patch.discount.Some? || patch.amountPaid.Some?
  }

  /** `findByIdAndUpdate(id, body)`: every field the body names, verbatim. */
  function Merge(doc: Invoice, patch: InvoicePatch): Invoice {
    doc.(invoiceNumber := patch.invoiceNumber.GetOr(doc.invoiceNumber),
         issuedBy := patch.issuedBy.GetOr(doc.issuedBy),
         date := patch.date.GetOr(doc.date),
         items := if patch.items.Some? then CastItems(patch.items.value) else doc.items,
         subTotal := patch.subTotal.GetOr(doc.subTotal),
         tax := patch.tax.GetOr(doc.tax),
         discount := patch.discount.GetOr(doc.discount),
         totalAmount := patch.totalAmount.GetOr(doc.totalAmount),
         amountPaid := patch.amountPaid.GetOr(doc.amountPaid),
         balanceDue := patch.balanceDue.GetOr(doc.balanceDue),
         status := patch.status.GetOr(doc.status),
         dueDate := patch.dueDate.GetOr(doc.dueDate),
         notes := if patch.notes.Some? then patch.notes else doc.notes,
         gstNumber := patch.gstNumber.GetOr(doc.gstNumber),
         project := patch.project.GetOr(doc.project),
         client := patch.client.GetOr(doc.client))
  }

  /** A patch that leaves the ledger alone writes its totals as given; nothing
      re-derives them, so a consistent invoice with a new total written over
      it is no longer consistent. */
  lemma VerbatimTotalBreaksLedger(doc: Invoice, patch: InvoicePatch)
    requires LedgerConsistent(doc) && !TouchesLedger(patch)
    requires patch.subTotal.None? && patch.totalAmount.Some? && patch.totalAmount.value != doc.totalAmount
    ensures Merge(doc, patch).totalAmount == patch.totalAmount.value
    ensures !LedgerConsistent(Merge(doc, patch))
  {
  }

  /** The verbatim merge writes a caller's invoice number as given, so a
      stored number can leave the `INV-YYYYMMDD-NNNN` format. */
  lemma PatchedNumberLeavesFormat(doc: Invoice, patch: InvoicePatch)
    requires patch.invoiceNumber == Some("INV-1")
    ensures Merge(doc, patch).invoiceNumber == "INV-1"
    ensures ParseInvoiceNumber(Merge(doc, patch).invoiceNumber).None?
  {
  }

  /** A ledger patch overrides a caller-chosen status whenever the merged
      invoice is settled: the status in the same patch does not survive. */
  lemma LedgerPatchOverridesStatus(doc: Invoice, patch: InvoicePatch)
    requires TouchesLedger(patch) && patch.status == Some(Draft)
    requires var m := Merge(doc, patch);
      SumOfLines(m.items) + m.tax - m.discount > 0 &&
      m.amountPaid >= SumOfLines(m.items) + m.tax - m.discount
    ensures Recalculated(Merge(doc, patch)).status == Paid
  {
  }

  /** Some invoice of `invoices` already carries `number` (the unique index). */
  predicate NumberTaken(invoices: map<Id, Invoice>, number: string) {
    exists id :: id in invoices && invoices[id].invoiceNumber == number
  }

  class InvoiceDb {
    var invoices: map<Id, Invoice>

    constructor ()
      ensures invoices == map[]
    {
      invoices := map[];
    }

    /** createInvoice. `today` is the UTC date of `now` and `u` the draw of
        `Math.random()`; `newId` is the id the database assigns. `clients`
        holds the ids of existing clients: populating any other client id
        yields null, and reading its `_id` throws (400). */
    method CreateInvoice(newId: Id, projects: map<Id, Projects.Project>, clients: set<Id>,
                         req: InvoiceRequest, issuer: Id, now: Time, today: CalendarDate, u: real)
      returns (r: Result<Invoice>)
      requires newId !in invoices
      requires ValidDate(today) && 0.0 <= u < 1.0
      modifies this
      ensures req.project !in projects ==>
        r == Err(Failure(404, "Project not found")) && invoices == old(invoices)
      ensures req.project in projects && projects[req.project].client !in clients ==>
        r == Err(Failure(400, "Cannot read properties of null (reading '_id')")) && invoices == old(invoices)
      ensures req.project in projects && projects[req.project].client in clients && req.dueDate.None? ==>
        r.IsStatus(400) && invoices == old(invoices)
      ensures req.project in projects && projects[req.project].client in clients && req.dueDate.Some? ==>
        && r.Ok?
        && invoices == old(invoices)[newId := r.value]
        && r.value.client == projects[req.project].client
        && r.value.invoiceNumber == InvoiceNumber(today, RandomSuffix(u))
        && r.value.amountPaid == 0
        && LedgerConsistent(r.value)
        && r.value == Recalculated(Unsaved(req, InvoiceNumber(today, RandomSuffix(u)),
                                           projects[req.project].client, issuer, now))
    {
      if req.project !in projects {
        return Err(Failure(404, "Project not found"));
      }
      var project := projects[req.project];
      var number := InvoiceNumber(today, RandomSuffix(u));
      if project.client !in clients {
        return Err(Failure(400, "Cannot read properties of null (reading '_id')"));
      }
      if req.dueDate.None? {
        return Err(Failure(400, "Invoice validation failed"));
      }
      var doc := Unsaved(req, number, project.client, issuer, now);
      doc := PreSave(doc);
      RecalculatedIsConsistent(Unsaved(req, number, project.client, issuer, now));
      invoices := invoices[newId := doc];
      r := Ok(doc);
    }

    /** updateInvoice: merge the body verbatim; if it names items, tax,
        discount or amountPaid, reload and save so the hook re-derives the ledger.
        A new number that another invoice carries violates the unique index
        during the merge (400), and nothing changes. */
    method UpdateInvoice(id: Id, patch: InvoicePatch) returns (r: Result<Invoice>)
      modifies this
      ensures id !in old(invoices) ==>
        r == Err(Failure(404, "Invoice not found")) && invoices == old(invoices)
      ensures id in old(invoices) && patch.invoiceNumber.Some?
              && NumberTaken(old(invoices) - {id}, patch.invoiceNumber.value) ==>
        r.IsStatus(400) && invoices == old(invoices)
      ensures r.Ok? ==> r.value.invoiceNumber == patch.invoiceNumber.GetOr(old(invoices)[id].invoiceNumber)
      ensures id in old(invoices) && (patch.invoiceNumber.None? || !NumberTaken(old(invoices) - {id}, patch.invoiceNumber.value))
              && !TouchesLedger(patch) ==>
        r == Ok(Merge(old(invoices)[id], patch)) && invoices == old(invoices)[id := r.value]
      ensures id in old(invoices) && (patch.invoiceNumber.None? || !NumberTaken(old(invoices) - {id}, patch.invoiceNumber.value))
              && TouchesLedger(patch) ==>
        && r == Ok(Recalculated(Merge(old(invoices)[id], patch)))
        && invoices == old(invoices)[id := r.value]
        && LedgerConsistent(r.value)
    {
      if id !in invoices {
        return Err(Failure(404, "Invoice not found"));
      }
      if patch.invoiceNumber.Some? && NumberTaken(invoices - {id}, patch.invoiceNumber.value) {
        return Err(Failure(400, "Duplicate key error on invoiceNumber"));
      }
      var updated := Merge(invoices[id], patch);
      invoices := invoices[id := updated];
      if TouchesLedger(patch) {
        // The reloaded document already carries every field of the patch.
        var doc := invoices[id];
        doc := PreSave(doc);
        RecalculatedIsConsistent(updated);
        invoices := invoices[id := doc];
        return Ok(doc);
      }
      r := Ok(updated);
    }
  }
}
