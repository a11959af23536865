/**
 * Invoices (ProcInvoice) and their lines (ProcInvoiceLine): change-tracking
 * setters, lookups by id, and the invoice totals as null-skipping folds over
 * the line totals.
 */
module Invoices {
  import opened Common
  import opened Money
  import opened Documents

  // Column lengths of the invoice.
  const LENGTH_INVOICENUMBER: nat := LENGTH_TEXT
  const LENGTH_INVOICENOTE: nat := LENGTH_TEXT_LONG
  // Column lengths of a line.
  const LENGTH_ORDERITEM: nat := LENGTH_TEXT
  const LENGTH_LINEID: nat := LENGTH_TEXT
  const LENGTH_COMMODITY_ID: nat := LENGTH_TEXT_LONG
  const LENGTH_DESCRIPTION: nat := LENGTH_TEXT_LONG
  const LENGTH_REMARK: nat := LENGTH_TEXT_LONG

  /** An invoice line as the invoice holds it. */
  datatype InvoiceLine = InvoiceLine(
    id: int,
    ownerID: int,
    orderItemID: Option<string>,
    lineID: Option<string>,
    commodityScheme: Option<CommodityScheme>,
    commodityID: Option<string>,
    description: Option<string>,
    quantity: int,
    unitPrice: Option<Price>,
    taxCategory: Option<TaxCategory>,
    remark: Option<string>)

  /** What the line setters guarantee about the text fields. */
  predicate LineClamped(l: InvoiceLine)
  {
    FitsIn(l.orderItemID, LENGTH_ORDERITEM) && FitsIn(l.lineID, LENGTH_LINEID)
    && FitsIn(l.commodityID, LENGTH_COMMODITY_ID) && FitsIn(l.description, LENGTH_DESCRIPTION)
    && FitsIn(l.remark, LENGTH_REMARK)
  }

  /** The k-totals of the lines, one per line and in order. */
  function LineTotals(lines: seq<InvoiceLine>, k: AmountKind): (r: seq<Option<int>>)
    ensures |r| == |lines|
    ensures forall i :: 0 <= i < |lines| ==> r[i] == LineTotal(lines[i].unitPrice, lines[i].quantity, k)
  {
    seq(|lines|, i requires 0 <= i < |lines| => LineTotal(lines[i].unitPrice, lines[i].quantity, k))
  }

  /** getTotalNetAmount / getTotalGrossAmount / getTotalTaxAmount of an invoice. */
  function InvoiceTotal(lines: Option<seq<InvoiceLine>>, k: AmountKind): Option<int>
  {
    if lines.None? then None else SumOpt(LineTotals(lines.value, k))
  }

  /**
   * An invoice total is the sum of the totals of the lines that have one,
   * and null exactly when no line has one.
   */
  lemma InvoiceTotalIsSumOfContributions(lines: Option<seq<InvoiceLine>>, k: AmountKind)
    ensures InvoiceTotal(lines, k).None? <==>
              lines.None? || forall i :: 0 <= i < |lines.value| ==>
                                 lines.value[i].unitPrice.None? || lines.value[i].quantity < 0
    ensures InvoiceTotal(lines, k).Some? ==>
              InvoiceTotal(lines, k).value == Sum(Present(LineTotals(lines.value, k)))
  {
    if lines.Some? {
      var ts := LineTotals(lines.value, k);
      SumOptIsSumOfPresent(ts);
      SumOptNoneIffAllNone(ts);
    }
  }

  /** The gross total of an invoice is its net total plus its tax total. */
  lemma InvoiceGrossIsNetPlusTax(lines: Option<seq<InvoiceLine>>)
    ensures InvoiceTotal(lines, GrossAmount).None? <==> InvoiceTotal(lines, NetAmount).None?
    ensures InvoiceTotal(lines, TaxAmount).None? <==> InvoiceTotal(lines, NetAmount).None?
    ensures InvoiceTotal(lines, GrossAmount).Some? ==>
              InvoiceTotal(lines, GrossAmount).value
              == InvoiceTotal(lines, NetAmount).value + InvoiceTotal(lines, TaxAmount).value
  {
    if lines.Some? {
      var ls := lines.value;
      var net, tax, gross := LineTotals(ls, NetAmount), LineTotals(ls, TaxAmount), LineTotals(ls, GrossAmount);
      forall i | 0 <= i < |ls|
        ensures (gross[i].None? <==> net[i].None?) && (tax[i].None? <==> net[i].None?)
        ensures gross[i].Some? ==> gross[i].value == net[i].value + tax[i].value
      {
        LineGrossIsNetPlusTax(ls[i].unitPrice, ls[i].quantity);
      }
      SumOptPointwise(net, tax, gross);
    }
  }

  /** The state of an invoice, field by field. */
  datatype InvoiceValue = InvoiceValue(
    id: int,
    deleted: bool,
    issueDate: Option<LocalDate>,
    invoiceNumber: Option<string>,
    invoiceNote: Option<string>,
    invoiceLines: Option<seq<InvoiceLine>>,
    attachments: Option<seq<LinkedAttachment>>)

  class ProcInvoice {
    var id: int
    var deleted: bool
    var issueDate: Option<LocalDate>
    var invoiceNumber: Option<string>
    var invoiceNote: Option<string>
    var invoiceLines: Option<seq<InvoiceLine>>
    var attachments: Option<seq<LinkedAttachment>>

    function Value(): InvoiceValue
      reads this
    {
      InvoiceValue(id, deleted, issueDate, invoiceNumber, invoiceNote, invoiceLines, attachments)
    }

    /** The texts fit their columns and no list is stored empty. */
    ghost predicate Valid()
      reads this
    {
      FitsIn(invoiceNumber, LENGTH_INVOICENUMBER) && FitsIn(invoiceNote, LENGTH_INVOICENOTE)
      && (invoiceLines.Some? ==> |invoiceLines.value| > 0)
      && (attachments.Some? ==> |attachments.value| > 0)
    }

    constructor ()
      ensures Valid() && id == 0 && !deleted
      ensures issueDate.None? && invoiceNumber.None? && invoiceNote.None?
      ensures invoiceLines.None? && attachments.None?
    {
      id, deleted := 0, false;
      issueDate, invoiceNumber, invoiceNote := None, None, None;
      invoiceLines, attachments := None, None;
    }

    method SetID(n: int)
      modifies this`id
      ensures id == n
    {
      id := n;
    }

    method SetDeleted(b: bool) returns (c: Change)
      modifies this`deleted
      ensures deleted == b && c == ChangeOf(old(deleted), b)
    {
      if deleted == b {
        return Unchanged;
      }
      deleted := b;
      c := Changed;
    }

    method SetIssueDate(d: Option<LocalDate>) returns (c: Change)
      modifies this`issueDate
      ensures issueDate == d && c == ChangeOf(old(issueDate), d)
    {
      if d == issueDate {
        return Unchanged;
      }
      issueDate := d;
      c := Changed;
    }

    /** setInvoiceNumber: compares the clamped value and stores it when it differs. */
    method SetInvoiceNumber(s: Option<string>) returns (c: Change)
      requires Valid()
      modifies this`invoiceNumber
      ensures Valid() && (invoiceNumber, c) == ClampedSet(old(invoiceNumber), s, LENGTH_INVOICENUMBER)
    {
      var clamped := EnsuredLength(s, LENGTH_INVOICENUMBER);
      if clamped == invoiceNumber {
        return Unchanged;
      }
      invoiceNumber := clamped;
      c := Changed;
    }

    method SetInvoiceNote(s: Option<string>) returns (c: Change)
      requires Valid()
      modifies this`invoiceNote
      ensures Valid() && (invoiceNote, c) == ClampedSet(old(invoiceNote), s, LENGTH_INVOICENOTE)
    {
      var clamped := EnsuredLength(s, LENGTH_INVOICENOTE);
      if clamped == invoiceNote {
        return Unchanged;
      }
      invoiceNote := clamped;
      c := Changed;
    }

    /** setInvoiceLines: an empty list is stored as null. */
    method SetInvoiceLines(lines: seq<InvoiceLine>) returns (c: Change)
      requires Valid()
      modifies this`invoiceLines
      ensures Valid() && invoiceLines == NonEmpty(lines)
      ensures c == ChangeOf(old(invoiceLines), invoiceLines)
    {
      var normalised := if |lines| == 0 then None else Some(lines);
      if invoiceLines == normalised {
        return Unchanged;
      }
      invoiceLines := normalised;
      c := Changed;
    }

    /** setAttachments: an empty list is stored as null. */
    method SetAttachments(links: seq<LinkedAttachment>) returns (c: Change)
      requires Valid()
      modifies this`attachments
      ensures Valid() && attachments == NonEmpty(links)
      ensures c == ChangeOf(old(attachments), attachments)
    {
      var normalised := if |links| == 0 then None else Some(links);
      if attachments == normalised {
        return Unchanged;
      }
      attachments := normalised;
      c := Changed;
    }

    /** getInvoiceLineOfID: the first line with that id, or null. */
    method GetInvoiceLineOfID(n: int) returns (r: Option<InvoiceLine>)
      ensures invoiceLines.None? ==> r.None?
      ensures invoiceLines.Some? ==>
                match FirstMatch(invoiceLines.value, (l: InvoiceLine) => l.id == n)
                case None => r.None?
                case Some(k) => r == Some(invoiceLines.value[k])
    {
      if invoiceLines.None? {
        return None;
      }
      var lines := invoiceLines.value;
      var i := 0;
      while i < |lines|
        invariant 0 <= i <= |lines|
        invariant forall j :: 0 <= j < i ==> lines[j].id != n
      {
        if lines[i].id == n {
          return Some(lines[i]);
        }
        i := i + 1;
      }
      r := None;
    }

    /** getAllAttachmentIDs: the ids of all linked attachments; empty without links. */
    method GetAllAttachmentIDs() returns (ids: set<string>)
      ensures attachments.None? ==> ids == {}
      ensures attachments.Some? ==> ids == AttachmentIDs(attachments.value)
    {
      ids := {};
      if attachments.None? {
        return;
      }
      var links := attachments.value;
      var i := 0;
      while i < |links|
        invariant 0 <= i <= |links|
        invariant ids == AttachmentIDs(links[..i])
      {
        assert links[..i + 1] == links[..i] + [links[i]];
        ids := ids + {links[i].attachmentID};
        i := i + 1;
      }
      assert links[..i] == links;
    }

    /** getAttachmentOfID: the first link with that database id, or null. */
    method GetAttachmentOfID(n: int) returns (r: Option<LinkedAttachment>)
      ensures attachments.None? ==> r.None?
      ensures attachments.Some? ==>
                match FirstMatch(attachments.value, (l: LinkedAttachment) => l.id == n)
                case None => r.None?
                case Some(k) => r == Some(attachments.value[k])
    {
      if attachments.None? {
        return None;
      }
      var links := attachments.value;
      var i := 0;
      while i < |links|
        invariant 0 <= i <= |links|
        invariant forall j :: 0 <= j < i ==> links[j].id != n
      {
        if links[i].id == n {
          return Some(links[i]);
        }
        i := i + 1;
      }
      r := None;
    }

    /**
     * getTotalNetAmount / getTotalGrossAmount / getTotalTaxAmount: the line
     * totals folded with _addOrCreate, starting from null.
     */
    method GetTotal(k: AmountKind) returns (r: Option<int>)
      ensures r == InvoiceTotal(invoiceLines, k)
    {
      r := None;
      if invoiceLines.None? {
        return;
      }
      var lines := invoiceLines.value;
      var i := 0;
      while i < |lines|
        invariant 0 <= i <= |lines|
        invariant r == SumOpt(LineTotals(lines[..i], k))
      {
        var ts := LineTotals(lines[..i + 1], k);
        assert ts[..i] == LineTotals(lines[..i], k);
        r := AddOrCreate(r, LineTotal(lines[i].unitPrice, lines[i].quantity, k));
        i := i + 1;
      }
      assert lines[..i] == lines;
    }
  }

  /**
   * An invoice line. Its owner is the invoice it belongs to; the line's
   * owner id is that invoice's id, or ILLEGAL_UINT while it has none.
   */
  class ProcInvoiceLine {
    var id: int
    var owner: ProcInvoice?
    var orderItemID: Option<string>
    var lineID: Option<string>
    var commodityScheme: Option<CommodityScheme>
    var commodityID: Option<string>
    var description: Option<string>
    var quantity: int
    var unitPrice: Option<Price>
    var taxCategory: Option<TaxCategory>
    var remark: Option<string>

    /** getOwnerID. */
    function OwnerID(): (r: int)
      reads this, owner
      ensures owner == null ==> r == ILLEGAL_UINT
      ensures owner != null ==> r == owner.id
    {
      if owner == null then ILLEGAL_UINT else owner.id
    }

    /** The line as its invoice holds it. */
    function Value(): InvoiceLine
      reads this, owner
    {
      InvoiceLine(id, OwnerID(), orderItemID, lineID, commodityScheme, commodityID, description, quantity,
                  unitPrice, taxCategory, remark)
    }

    /** The texts fit their columns: the line's value is LineClamped. */
    ghost predicate Valid()
      reads this
    {
      FitsIn(orderItemID, LENGTH_ORDERITEM) && FitsIn(lineID, LENGTH_LINEID)
      && FitsIn(commodityID, LENGTH_COMMODITY_ID) && FitsIn(description, LENGTH_DESCRIPTION)
      && FitsIn(remark, LENGTH_REMARK)
    }

    /** new ProcInvoiceLine(): no owner, every field null or zero. */
    constructor ()
      ensures Valid() && owner == null
      ensures Value() == InvoiceLine(0, ILLEGAL_UINT, None, None, None, None, None, 0, None, None, None)
    {
      id, owner, quantity := 0, null, 0;
      orderItemID, lineID, commodityScheme, commodityID, description := None, None, None, None, None;
      unitPrice, taxCategory, remark := None, None, None;
    }

    /** setOwner: a null owner is a null pointer. */
    method SetOwner(o: ProcInvoice?) returns (r: Result<()>)
      modifies this`owner
      ensures o == null ==> r == Err(NullPointer("owner")) && owner == old(owner)
      ensures o != null ==> r == Ok(()) && owner == o
    {
      if o == null {
        return Err(NullPointer("owner"));
      }
      owner := o;
      r := Ok(());
    }

    method SetID(n: int)
      modifies this`id
      ensures id == n
    {
      id := n;
    }

    method SetOrderItemID(s: Option<string>) returns (c: Change)
      requires Valid()
      modifies this`orderItemID
      ensures Valid() && (orderItemID, c) == ClampedSet(old(orderItemID), s, LENGTH_ORDERITEM)
    {
      var clamped := EnsuredLength(s, LENGTH_ORDERITEM);
      if orderItemID == clamped {
        return Unchanged;
      }
      orderItemID := clamped;
      c := Changed;
    }

    method SetLineID(s: Option<string>) returns (c: Change)
      requires Valid()
      modifies this`lineID
      ensures Valid() && (lineID, c) == ClampedSet(old(lineID), s, LENGTH_LINEID)
    {
      var clamped := EnsuredLength(s, LENGTH_LINEID);
      if lineID == clamped {
        return Unchanged;
      }
      lineID := clamped;
      c := Changed;
    }

    method SetCommodityScheme(s: Option<CommodityScheme>) returns (c: Change)
      modifies this`commodityScheme
      ensures commodityScheme == s && c == ChangeOf(old(commodityScheme), s)
    {
      if s == commodityScheme {
        return Unchanged;
      }
      commodityScheme := s;
      c := Changed;
    }

    method SetCommodityID(s: Option<string>) returns (c: Change)
      requires Valid()
      modifies this`commodityID
      ensures Valid() && (commodityID, c) == ClampedSet(old(commodityID), s, LENGTH_COMMODITY_ID)
    {
      var clamped := EnsuredLength(s, LENGTH_COMMODITY_ID);
      if commodityID == clamped {
        return Unchanged;
      }
      commodityID := clamped;
      c := Changed;
    }

    method SetDescription(s: Option<string>) returns (c: Change)
      requires Valid()
      modifies this`description
      ensures Valid() && (description, c) == ClampedSet(old(description), s, LENGTH_DESCRIPTION)
    {
      var clamped := EnsuredLength(s, LENGTH_DESCRIPTION);
      if description == clamped {
        return Unchanged;
      }
      description := clamped;
      c := Changed;
    }

    method SetQuantity(n: int) returns (c: Change)
      modifies this`quantity
      ensures quantity == n && c == ChangeOf(old(quantity), n)
    {
      if quantity == n {
        return Unchanged;
      }
      quantity := n;
      c := Changed;
    }

    /** setUnitPrice(Price), the persistence variant: compare, then store. */
    method SetUnitPriceCompared(p: Option<Price>) returns (c: Change)
      modifies this`unitPrice
      ensures unitPrice == p && c == ChangeOf(old(unitPrice), p)
    {
      if p == unitPrice {
        return Unchanged;
      }
      unitPrice := p;
      c := Changed;
    }

    /** setUnitPrice(IReadonlyPrice): null is a null pointer; otherwise a copy is stored and CHANGED answered. */
    method SetUnitPrice(p: Option<Price>) returns (r: Result<Change>)
      modifies this`unitPrice
      ensures p.None? ==> r == Err(NullPointer("unitPrice")) && unitPrice == old(unitPrice)
      ensures p.Some? ==> r == Ok(Changed) && unitPrice == p
    {
      if p.None? {
        return Err(NullPointer("unitPrice"));
      }
      unitPrice := p;
      r := Ok(Changed);
    }

    method SetTaxCategory(t: Option<TaxCategory>) returns (c: Change)
      modifies this`taxCategory
      ensures taxCategory == t && c == ChangeOf(old(taxCategory), t)
    {
      if t == taxCategory {
        return Unchanged;
      }
      taxCategory := t;
      c := Changed;
    }

    method SetRemark(s: Option<string>) returns (c: Change)
      requires Valid()
      modifies this`remark
      ensures Valid() && (remark, c) == ClampedSet(old(remark), s, LENGTH_REMARK)
    {
      var clamped := EnsuredLength(s, LENGTH_REMARK);
      if remark == clamped {
        return Unchanged;
      }
      remark := clamped;
      c := Changed;
    }

    /** getTotalNetAmount / getTotalGrossAmount / getTotalTaxAmount of the line. */
    function Total(k: AmountKind): (r: Option<int>)
      reads this
      ensures r.None? <==> unitPrice.None? || quantity < 0
      ensures r.Some? ==> r.value == AmountOf(unitPrice.value, k) * quantity
    {
      LineTotal(unitPrice, quantity, k)
    }
  }
}
