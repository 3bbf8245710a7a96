/** The invoice document and its pre-save hook, which derives every line
    amount, the sub-total, the total, the balance due and the payment
    status from the stored quantities, prices, tax, discount and payment. */
module InvoiceSchema {
  import opened Common

  datatype InvoiceStatus = Draft | Sent | Unpaid | PartiallyPaid | Paid | Overdue | Cancelled

  /** One line of an invoice; `amount` is whatever was last stored. */
  datatype LineItem = LineItem(description: string, quantity: int, unitPrice: int, amount: Option<int>)

  /** An invoice as stored. Money is in integer minor units. */
  datatype Invoice = Invoice(
    invoiceNumber: string,
    project: Id,
    client: Id,
    issuedBy: Id,
    date: Time,
    dueDate: Time,
    items: seq<LineItem>,
    subTotal: int,
    tax: int,
    discount: int,
    totalAmount: int,
    amountPaid: int,
    balanceDue: int,
    status: InvoiceStatus,
    notes: Option<string>,
    gstNumber: string)

  // Schema defaults applied when a field is absent on creation.
  const DefaultQuantity: int := 1
  const DefaultTax: int := 0
  const DefaultDiscount: int := 0
  const DefaultAmountPaid: int := 0
  const DefaultStatus: InvoiceStatus := Draft
  const DefaultGstNumber: string := ""

  /** quantity × unit price of one line. */
  function LineAmount(item: LineItem): int {
    item.quantity * item.unitPrice
  }

  /** The line with its amount recomputed; the supplied amount is ignored. */
  function Priced(item: LineItem): LineItem {
    item.(amount := Some(LineAmount(item)))
  }

  function PricedItems(items: seq<LineItem>): seq<LineItem> {
    seq(|items|, k requires 0 <= k < |items| => Priced(items[k]))
  }

  /** Sum of quantity × unit price over the lines, accumulated front to back. */
  function SumOfLines(items: seq<LineItem>): int {
    if |items| == 0 then 0 else SumOfLines(items[..|items| - 1]) + LineAmount(items[|items| - 1])
  }

  /** The status rule of the hook: Paid first, then Partially Paid, else unchanged. */
  function DerivedStatus(totalAmount: int, balanceDue: int, amountPaid: int, prior: InvoiceStatus): InvoiceStatus {
    if balanceDue <= 0 && totalAmount > 0 then Paid
    else if amountPaid > 0 && balanceDue > 0 then PartiallyPaid
    else prior
  }

  /** The document after the pre-save hook (the specification of PreSave). */
  function Recalculated(doc: Invoice): Invoice {
    var subTotal := SumOfLines(doc.items);
    var totalAmount := subTotal + doc.tax - doc.discount;
    var balanceDue := totalAmount - doc.amountPaid;
    doc.(items := PricedItems(doc.items),
         subTotal := subTotal,
         totalAmount := totalAmount,
         balanceDue := balanceDue,
         status := DerivedStatus(totalAmount, balanceDue, doc.amountPaid, doc.status))
  }

  /** The ledger identities every recalculated invoice satisfies. */
  predicate LedgerConsistent(doc: Invoice) {
    && (forall k :: 0 <= k < |doc.items| ==> doc.items[k].amount == Some(LineAmount(doc.items[k])))
    && doc.subTotal == SumOfLines(doc.items)
    && doc.totalAmount == doc.subTotal + doc.tax - doc.discount
    && doc.balanceDue == doc.totalAmount - doc.amountPaid
  }

  /** The pre-save hook: walks the lines, overwriting each amount and
      accumulating the sub-total, then assigns the totals and the status. */
  method PreSave(doc: Invoice) returns (saved: Invoice)
    ensures |saved.items| == |doc.items|
    ensures forall k :: 0 <= k < |doc.items| ==>
      && saved.items[k].amount == Some(doc.items[k].quantity * doc.items[k].unitPrice)
      && saved.items[k].description == doc.items[k].description
      && saved.items[k].quantity == doc.items[k].quantity
      && saved.items[k].unitPrice == doc.items[k].unitPrice
    ensures saved.subTotal == SumOfLines(doc.items)
    ensures saved.totalAmount == saved.subTotal + doc.tax - doc.discount
    ensures saved.balanceDue == saved.totalAmount - doc.amountPaid
    ensures saved.balanceDue <= 0 && saved.totalAmount > 0 ==> saved.status == Paid
    ensures !(saved.balanceDue <= 0 && saved.totalAmount > 0) && doc.amountPaid > 0 && saved.balanceDue > 0
      ==> saved.status == PartiallyPaid
    ensures !(saved.balanceDue <= 0 && saved.totalAmount > 0) && !(doc.amountPaid > 0 && saved.balanceDue > 0)
      ==> saved.status == doc.status
    ensures saved.(items := doc.items, subTotal := doc.subTotal, totalAmount := doc.totalAmount,
                   balanceDue := doc.balanceDue, status := doc.status) == doc
    ensures saved == Recalculated(doc)
  {
    var items := doc.items;
    var subTotal := 0;
    var i := 0;
    while i < |items|
      invariant 0 <= i <= |items| == |doc.items|
      invariant forall k :: 0 <= k < i ==> items[k] == Priced(doc.items[k])
      invariant forall k :: i <= k < |items| ==> items[k] == doc.items[k]
      invariant subTotal == SumOfLines(doc.items[..i])
    {
      assert doc.items[..i + 1][..i] == doc.items[..i];
      items := items[i := items[i].(amount := Some(items[i].quantity * items[i].unitPrice))];
      subTotal := subTotal + items[i].amount.value;
      i := i + 1;
    }
    assert doc.items[..i] == doc.items;
    assert items == PricedItems(doc.items);
    var totalAmount := subTotal + doc.tax - doc.discount;
    var balanceDue := totalAmount - doc.amountPaid;
    var status := doc.status;
    if balanceDue <= 0 && totalAmount > 0 {
      status := Paid;
    } else if doc.amountPaid > 0 && balanceDue > 0 {
      status := PartiallyPaid;
    }
    saved := doc.(items := items, subTotal := subTotal, totalAmount := totalAmount,
                  balanceDue := balanceDue, status := status);
  }

  /** Re-pricing ignores the amounts already stored, so the sum is unchanged. */
  lemma {:induction false} SumOfPricedLines(items: seq<LineItem>)
    ensures SumOfLines(PricedItems(items)) == SumOfLines(items)
  {
    if |items| > 0 {
      var front := items[..|items| - 1];
      assert PricedItems(items)[..|items| - 1] == PricedItems(front);
      SumOfPricedLines(front);
    }
  }

  /** Every recalculated invoice satisfies the ledger identities, whatever
      amounts and totals it carried before. */
  lemma RecalculatedIsConsistent(doc: Invoice)
    ensures LedgerConsistent(Recalculated(doc))
  {
    SumOfPricedLines(doc.items);
  }

  /** Running the hook twice gives the same document as running it once. */
  lemma RecalculateIdempotent(doc: Invoice)
    ensures Recalculated(Recalculated(doc)) == Recalculated(doc)
  {
    var once := Recalculated(doc);
    SumOfPricedLines(doc.items);
    assert PricedItems(once.items) == once.items;
  }

  /** A consistent invoice is a fixed point of the hook except for its status:
      the hook only re-derives the status. */
  lemma ConsistentIsStable(doc: Invoice)
    requires LedgerConsistent(doc)
    ensures Recalculated(doc) == doc.(status := DerivedStatus(doc.totalAmount, doc.balanceDue, doc.amountPaid, doc.status))
  {
    assert PricedItems(doc.items) == doc.items;
  }

  /** The status after the hook, in terms of the invoice before it:
      Paid exactly when nothing is due on a positive total, or when it was
      already Paid and the Partially Paid rule does not fire. */
  lemma PaidExactly(doc: Invoice)
    ensures var r := Recalculated(doc);
      r.status == Paid <==>
        (r.balanceDue <= 0 && r.totalAmount > 0) ||
        (doc.status == Paid && !(doc.amountPaid > 0 && r.balanceDue > 0))
  {
  }

  /** With nothing paid and nothing settled, a Draft stays a Draft. */
  lemma UnpaidDraftStaysDraft(doc: Invoice)
    requires doc.status == Draft && doc.amountPaid == 0
    requires SumOfLines(doc.items) + doc.tax - doc.discount > 0
    ensures Recalculated(doc).status == Draft
    ensures Recalculated(doc).balanceDue > 0
  {
  }

  /** A Paid invoice whose payment is reset to zero keeps the status Paid
      although a positive balance is due again: the hook never clears Paid
      when nothing is paid. */
  lemma PaidIsSticky(doc: Invoice)
    requires doc.status == Paid && doc.amountPaid == 0
    requires SumOfLines(doc.items) + doc.tax - doc.discount > 0
    ensures Recalculated(doc).status == Paid
    ensures Recalculated(doc).balanceDue > 0
  {
  }

  /** The worked example: 2 × 500 and 1 × 1500, tax 200, discount 100,
      2600 paid in full. */
  lemma SettledExample()
    ensures var doc := Invoice("INV-20240101-1234", 1, 2, 3, 0, 0,
                               [LineItem("Plans", 2, 500, None), LineItem("Site visit", 1, 1500, Some(7))],
                               0, 200, 100, 0, 2600, 0, Draft, None, "");
      var r := Recalculated(doc);
      r.subTotal == 2500 && r.totalAmount == 2600 && r.balanceDue == 0 && r.status == Paid
      && r.items[1].amount == Some(1500)
  {
    var items := [LineItem("Plans", 2, 500, None), LineItem("Site visit", 1, 1500, Some(7))];
    assert items[..1][..0] == [];
    assert SumOfLines(items[..1]) == 1000;
    assert items[..|items| - 1] == items[..1];
  }
}
