/**
 * The reading side of SimpleProcSerializer as the program runs it: a fresh
 * order or invoice is created, its setters are fed the element's texts, and
 * its items, lines and attachments are read in loops over the child
 * elements, the first unreadable one ending the read. Each method is proved
 * to leave the object holding exactly the value that SimpleSerializer's
 * reading functions describe, so the round-trip lemmas proved there hold
 * for the objects built here.
 */
module SerializerObjects {
  import opened Common
  import opened Xml
  import Attachments
  import opened Documents
  import opened Money
  import Orders
  import Invoices
  import opened SimpleSerializer

  // ---------------------------------------------------------------------
  // Attachments
  // ---------------------------------------------------------------------

  /**
   * The attachment loop of readOrder and readInvoice: each attachment child
   * is read with _readAttachment under the next generated id, handed to the
   * read handler, and linked.
   */
  method ReadLinkList(es: seq<Element>, cd: Codecs, newIDs: nat -> string, now: Attachments.DateTime,
                      handle: Attachments.Attachment -> Attachments.Attachment)
    returns (r: Result<seq<LinkedAttachment>>)
    ensures r == ReadLinks(es, cd, newIDs, now, handle)
  {
    var links: seq<LinkedAttachment> := [];
    var i := 0;
    while i < |es|
      invariant 0 <= i <= |es| && |links| == i
      invariant forall j :: 0 <= j < i ==> ReadLink(es[j], cd, newIDs(j), now, handle) == Ok(links[j])
    {
      var a := ReadAttachment(es[i], cd, newIDs(i), now);
      if a.Err? {
        assert ReadLink(es[i], cd, newIDs(i), now, handle) == Err(a.error);
        ReadLinksFirstError(es, cd, newIDs, now, handle, i);
        return Err(a.error);
      }
      links := links + [LinkTo(a.value, handle)];
      i := i + 1;
    }
    ReadLinksAllRead(es, cd, newIDs, now, handle, links);
    r := Ok(links);
  }

  // ---------------------------------------------------------------------
  // Orders
  // ---------------------------------------------------------------------

  /**
   * The body of readOrder's item loop on the values it reads: a new item
   * owned by `order`, its id when ids are read, then description, note,
   * quantity, unit price, commodity scheme and commodity id through the
   * item's setters. A missing unit price makes setUnitPrice fail.
   */
  method BuildOrderItem(order: Orders.ProcOrder, bReadID: bool, id: int, description: Option<string>,
                        note: Option<string>, quantity: int, price: Option<Price>,
                        scheme: Option<CommodityScheme>, commodityID: Option<string>)
    returns (r: Result<Orders.ProcOrderItem>)
    ensures r.Ok? <==> price.Some?
    ensures r.Err? ==> r.error == NullPointer("unitPrice")
    ensures r.Ok? ==> fresh(r.value) && r.value.owner == order && r.value.Valid()
    ensures r.Ok? ==> r.value.Value()
                      == Orders.OrderItem(if bReadID then id else 0, order.id,
                                          EnsuredLength(description, Orders.LENGTH_DESCRIPTION),
                                          EnsuredLength(note, Orders.LENGTH_NOTE), quantity, price, scheme,
                                          EnsuredLength(commodityID, Orders.LENGTH_COMMODITY_ID))
  {
    var item := new Orders.ProcOrderItem();
    var owned := item.SetOwner(order);
    if bReadID {
      item.SetID(id);
    }
    var c := item.SetDescription(description);
    c := item.SetNote(note);
    c := item.SetQuantity(quantity);
    var priced := item.SetUnitPrice(price);
    if priced.Err? {
      return Err(priced.error);
    }
    c := item.SetCommodityScheme(scheme);
    c := item.SetCommodityID(commodityID);
    r := Ok(item);
  }

  /** One pass of readOrder's item loop: the item built from the texts of one orderitem child. */
  method ReadOrderItemObject(e: Element, cd: Codecs, order: Orders.ProcOrder, bReadID: bool)
    returns (r: Result<Orders.ProcOrderItem>)
    ensures r.Ok? <==> ReadOrderItem(e, cd, order.id, bReadID).Ok?
    ensures r.Err? ==> r.error == ReadOrderItem(e, cd, order.id, bReadID).error
    ensures r.Ok? ==> fresh(r.value) && r.value.owner == order && r.value.Valid()
    ensures r.Ok? ==> r.value.Value() == ReadOrderItem(e, cd, order.id, bReadID).value
  {
    var cs := e.children;
    r := BuildOrderItem(order, bReadID, ReadID(e, true), ChildText(cs, "description"), ChildText(cs, "note"),
                        ParseInt(ChildText(cs, "quantity"), -1), ReadUnitPrice(cs, cd),
                        Parsed(cd.commodityScheme, ChildText(cs, "commodityscheme")), ChildText(cs, "commodityid"));
  }

  /**
   * readOrder's item loop: one item per orderitem child, in document order,
   * owned by `order`; the first unreadable one ends the read.
   */
  method ReadOrderItemList(es: seq<Element>, cd: Codecs, order: Orders.ProcOrder, bReadID: bool)
    returns (r: Result<seq<Orders.OrderItem>>)
    ensures r == ReadOrderItems(es, cd, order.id, bReadID)
  {
    var items: seq<Orders.OrderItem> := [];
    var i := 0;
    while i < |es|
      invariant 0 <= i <= |es| && |items| == i
      invariant forall j :: 0 <= j < i ==> ReadOrderItem(es[j], cd, order.id, bReadID) == Ok(items[j])
    {
      var item := ReadOrderItemObject(es[i], cd, order, bReadID);
      if item.Err? {
        assert !ReadOrderItems(es, cd, order.id, bReadID).Ok?;
        return Err(item.error);
      }
      items := items + [item.value.Value()];
      i := i + 1;
    }
    ReadOrderItemsAllRead(es, cd, order.id, bReadID, items);
    r := Ok(items);
  }

  /**
   * The first part of readOrder on the values it reads: a new order with the
   * id (when ids are read), the deleted flag, the order number, the dates and
   * the incoterm set through its setters, and no items or attachments yet.
   */
  method BuildOrderHeader(bReadID: bool, id: int, deleted: bool, orderNumber: Option<string>,
                          issueDate: Option<LocalDate>, deliveryStart: Option<LocalDate>,
                          deliveryEnd: Option<LocalDate>, incoterm: Option<Incoterm>)
    returns (order: Orders.ProcOrder)
    ensures fresh(order) && order.Valid()
    ensures order.Value() == Orders.OrderValue(if bReadID then id else 0, deleted,
                                               EnsuredLength(orderNumber, Orders.LENGTH_ORDER_NUMBER), None,
                                               issueDate, deliveryStart, deliveryEnd, incoterm, None)
  {
    order := new Orders.ProcOrder();
    if bReadID {
      order.SetID(id);
    }
    var c := order.SetDeleted(deleted);
    c := order.SetOrderNumber(orderNumber);
    c := order.SetIssueDate(issueDate);
    c := order.SetDeliveryStartDate(deliveryStart);
    c := order.SetDeliveryEndDate(deliveryEnd);
    c := order.SetIncoterm(incoterm);
  }

  /** The first part of readOrder: the order built from the element's id, deleted flag and header texts. */
  method ReadOrderHeader(e: Element, cd: Codecs, bReadID: bool) returns (order: Orders.ProcOrder)
    ensures fresh(order) && order.Valid()
    ensures order.Value() == Orders.OrderValue(ReadID(e, bReadID), ReadDeleted(e),
                                               ReadText(e.children, "ordernumber", Orders.LENGTH_ORDER_NUMBER), None,
                                               Parsed(cd.date, ChildText(e.children, "issuedate")),
                                               Parsed(cd.date, ChildText(e.children, "deliverystartdate")),
                                               Parsed(cd.date, ChildText(e.children, "deliveryenddate")),
                                               Parsed(cd.incoterm, ChildText(e.children, "incoterm")), None)
  {
    var cs := e.children;
    order := BuildOrderHeader(bReadID, ReadID(e, true), ReadDeleted(e), ChildText(cs, "ordernumber"),
                              Parsed(cd.date, ChildText(cs, "issuedate")), Parsed(cd.date, ChildText(cs, "deliverystartdate")),
                              Parsed(cd.date, ChildText(cs, "deliveryenddate")), Parsed(cd.incoterm, ChildText(cs, "incoterm")));
  }

  /**
   * The first part of readOrder: a new order with its header fields, then
   * its items read in a loop and stored with setOrderItems (an empty list
   * stored as null).
   */
  method ReadOrderWithItems(e: Element, cd: Codecs, bReadID: bool) returns (r: Result<Orders.ProcOrder>)
    ensures var items := ReadOrderItems(AllChildren(e.children, "orderitem"), cd, ReadID(e, bReadID), bReadID);
            r.Ok? <==> items.Ok?
    ensures var items := ReadOrderItems(AllChildren(e.children, "orderitem"), cd, ReadID(e, bReadID), bReadID);
            r.Err? ==> items.Err? && r.error == items.error
    ensures r.Ok? ==> fresh(r.value) && r.value.Valid()
    ensures var items := ReadOrderItems(AllChildren(e.children, "orderitem"), cd, ReadID(e, bReadID), bReadID);
            r.Ok? ==> r.value.Value()
                      == Orders.OrderValue(ReadID(e, bReadID), ReadDeleted(e),
                                           ReadText(e.children, "ordernumber", Orders.LENGTH_ORDER_NUMBER),
                                           NonEmpty(items.value), Parsed(cd.date, ChildText(e.children, "issuedate")),
                                           Parsed(cd.date, ChildText(e.children, "deliverystartdate")),
                                           Parsed(cd.date, ChildText(e.children, "deliveryenddate")),
                                           Parsed(cd.incoterm, ChildText(e.children, "incoterm")), None)
  {
    var order := ReadOrderHeader(e, cd, bReadID);
    var items := ReadOrderItemList(AllChildren(e.children, "orderitem"), cd, order, bReadID);
    if items.Err? {
      return Err(items.error);
    }
    var c := order.SetOrderItems(items.value);
    r := Ok(order);
  }

  /**
   * readOrder: a new order, its id and deleted flag, its header texts, then
   * its items and its attachments, each list read in a loop and stored with
   * its setter (an empty list stored as null).
   */
  method ReadOrderObject(e: Element, cd: Codecs, newIDs: nat -> string, now: Attachments.DateTime,
                         handle: Attachments.Attachment -> Attachments.Attachment, bReadID: bool)
    returns (r: Result<Orders.ProcOrder>)
    ensures r.Ok? <==> ReadOrder(e, cd, newIDs, now, handle, bReadID).Ok?
    ensures r.Err? ==> r.error == ReadOrder(e, cd, newIDs, now, handle, bReadID).error
    ensures r.Ok? ==> fresh(r.value)
    ensures r.Ok? ==> r.value.Value() == ReadOrder(e, cd, newIDs, now, handle, bReadID).value
    ensures r.Ok? ==> r.value.Valid()
  {
    ghost var items := ReadOrderItems(AllChildren(e.children, "orderitem"), cd, ReadID(e, bReadID), bReadID);
    var order := ReadOrderWithItems(e, cd, bReadID);
    if order.Err? {
      ReadOrderItemsFailed(e, cd, newIDs, now, handle, bReadID, items);
      return Err(order.error);
    }
    var links := ReadLinkList(AllChildren(e.children, "attachment"), cd, newIDs, now, handle);
    if links.Err? {
      ReadOrderLinksFailed(e, cd, newIDs, now, handle, bReadID, items.value, links);
      return Err(links.error);
    }
    var c := order.value.SetAttachments(links.value);
    ReadOrderOfLists(e, cd, newIDs, now, handle, bReadID, items.value, links.value);
    r := order;
  }

  // ---------------------------------------------------------------------
  // Invoices
  // ---------------------------------------------------------------------

  /**
   * The start of readInvoice's line loop, on the values it reads: a new
   * line owned by `invoice`, its id when ids are read, then order item id
   * and line id through the line's setters.
   */
  method BuildInvoiceLineIDs(invoice: Invoices.ProcInvoice, bReadID: bool, id: int, orderItemID: Option<string>,
                             lineID: Option<string>)
    returns (line: Invoices.ProcInvoiceLine)
    ensures fresh(line) && line.owner == invoice && line.Valid()
    ensures line.id == (if bReadID then id else 0)
    ensures line.orderItemID == EnsuredLength(orderItemID, Invoices.LENGTH_ORDERITEM)
    ensures line.lineID == EnsuredLength(lineID, Invoices.LENGTH_LINEID)
    ensures line.commodityScheme.None? && line.commodityID.None? && line.description.None? && line.quantity == 0
    ensures line.unitPrice.None? && line.taxCategory.None? && line.remark.None?
  {
    line := new Invoices.ProcInvoiceLine();
    var owned := line.SetOwner(invoice);
    if bReadID {
      line.SetID(id);
    }
    var c := line.SetOrderItemID(orderItemID);
    c := line.SetLineID(lineID);
  }

  /**
   * The part of readInvoice's line loop before the unit price, on the values
   * it reads: the line BuildInvoiceLineIDs starts, then commodity scheme and
   * id, description and quantity through the line's setters.
   */
  method BuildInvoiceLineHead(invoice: Invoices.ProcInvoice, bReadID: bool, id: int, orderItemID: Option<string>,
                              lineID: Option<string>, scheme: Option<CommodityScheme>, commodityID: Option<string>,
                              description: Option<string>, quantity: int)
    returns (line: Invoices.ProcInvoiceLine)
    ensures fresh(line) && line.owner == invoice && line.Valid()
    ensures line.id == (if bReadID then id else 0)
    ensures line.orderItemID == EnsuredLength(orderItemID, Invoices.LENGTH_ORDERITEM)
    ensures line.lineID == EnsuredLength(lineID, Invoices.LENGTH_LINEID)
    ensures line.commodityScheme == scheme
    ensures line.commodityID == EnsuredLength(commodityID, Invoices.LENGTH_COMMODITY_ID)
    ensures line.description == EnsuredLength(description, Invoices.LENGTH_DESCRIPTION)
    ensures line.quantity == quantity
    ensures line.unitPrice.None? && line.taxCategory.None? && line.remark.None?
  {
    line := BuildInvoiceLineIDs(invoice, bReadID, id, orderItemID, lineID);
    var c := line.SetCommodityScheme(scheme);
    c := line.SetCommodityID(commodityID);
    c := line.SetDescription(description);
    c := line.SetQuantity(quantity);
  }

  /**
   * The body of readInvoice's line loop on the values it reads: the line's
   * first fields as BuildInvoiceLineHead sets them, then unit price, tax
   * category and remark. A missing unit price makes setUnitPrice fail.
   */
  method BuildInvoiceLine(invoice: Invoices.ProcInvoice, bReadID: bool, id: int, orderItemID: Option<string>,
                          lineID: Option<string>, scheme: Option<CommodityScheme>, commodityID: Option<string>,
                          description: Option<string>, quantity: int, price: Option<Price>,
                          taxCategory: Option<TaxCategory>, remark: Option<string>)
    returns (r: Result<Invoices.ProcInvoiceLine>)
    ensures r.Ok? <==> price.Some?
    ensures r.Err? ==> r.error == NullPointer("unitPrice")
    ensures r.Ok? ==> fresh(r.value) && r.value.owner == invoice && r.value.Valid()
    ensures r.Ok? ==> r.value.Value()
                      == Invoices.InvoiceLine(if bReadID then id else 0, invoice.id,
                                              EnsuredLength(orderItemID, Invoices.LENGTH_ORDERITEM),
                                              EnsuredLength(lineID, Invoices.LENGTH_LINEID), scheme,
                                              EnsuredLength(commodityID, Invoices.LENGTH_COMMODITY_ID),
                                              EnsuredLength(description, Invoices.LENGTH_DESCRIPTION), quantity, price,
                                              taxCategory, EnsuredLength(remark, Invoices.LENGTH_REMARK))
  {
    var line := BuildInvoiceLineHead(invoice, bReadID, id, orderItemID, lineID, scheme, commodityID, description, quantity);
    var priced := line.SetUnitPrice(price);
    if priced.Err? {
      return Err(priced.error);
    }
    var c := line.SetTaxCategory(taxCategory);
    c := line.SetRemark(remark);
    r := Ok(line);
  }

  /** One pass of readInvoice's line loop: the line built from the texts of one invoiceline child. */
  method ReadInvoiceLineObject(e: Element, cd: Codecs, invoice: Invoices.ProcInvoice, bReadID: bool)
    returns (r: Result<Invoices.ProcInvoiceLine>)
    ensures r.Ok? <==> ReadInvoiceLine(e, cd, invoice.id, bReadID).Ok?
    ensures r.Err? ==> r.error == ReadInvoiceLine(e, cd, invoice.id, bReadID).error
    ensures r.Ok? ==> fresh(r.value) && r.value.owner == invoice && r.value.Valid()
    ensures r.Ok? ==> r.value.Value() == ReadInvoiceLine(e, cd, invoice.id, bReadID).value
  {
    var cs := e.children;
    r := BuildInvoiceLine(invoice, bReadID, ReadID(e, true), ChildText(cs, "orderitemid"), ChildText(cs, "lineid"),
                          Parsed(cd.commodityScheme, ChildText(cs, "commodityscheme")), ChildText(cs, "commodityid"),
                          ChildText(cs, "description"), ParseInt(ChildText(cs, "quantity"), -1), ReadUnitPrice(cs, cd),
                          Parsed(cd.taxCategory, ChildText(cs, "taxcategory")), ChildText(cs, "remark"));
  }

  /**
   * readInvoice's line loop: one line per invoiceline child, in document
   * order, owned by `invoice`; the first unreadable one ends the read.
   */
  method ReadInvoiceLineList(es: seq<Element>, cd: Codecs, invoice: Invoices.ProcInvoice, bReadID: bool)
    returns (r: Result<seq<Invoices.InvoiceLine>>)
    ensures r == ReadInvoiceLines(es, cd, invoice.id, bReadID)
  {
    var lines: seq<Invoices.InvoiceLine> := [];
    var i := 0;
    while i < |es|
      invariant 0 <= i <= |es| && |lines| == i
      invariant forall j :: 0 <= j < i ==> ReadInvoiceLine(es[j], cd, invoice.id, bReadID) == Ok(lines[j])
    {
      var line := ReadInvoiceLineObject(es[i], cd, invoice, bReadID);
      if line.Err? {
        assert !ReadInvoiceLines(es, cd, invoice.id, bReadID).Ok?;
        return Err(line.error);
      }
      lines := lines + [line.value.Value()];
      i := i + 1;
    }
    ReadInvoiceLinesAllRead(es, cd, invoice.id, bReadID, lines);
    r := Ok(lines);
  }

  /**
   * The first part of readInvoice on the values it reads: a new invoice with
   * the id (when ids are read), the deleted flag, the issue date, number and
   * note set through its setters, and no lines or attachments yet.
   */
  method BuildInvoiceHeader(bReadID: bool, id: int, deleted: bool, issueDate: Option<LocalDate>,
                            invoiceNumber: Option<string>, invoiceNote: Option<string>)
    returns (invoice: Invoices.ProcInvoice)
    ensures fresh(invoice) && invoice.Valid()
    ensures invoice.Value() == Invoices.InvoiceValue(if bReadID then id else 0, deleted, issueDate,
                                                     EnsuredLength(invoiceNumber, Invoices.LENGTH_INVOICENUMBER),
                                                     EnsuredLength(invoiceNote, Invoices.LENGTH_INVOICENOTE), None, None)
  {
    invoice := new Invoices.ProcInvoice();
    if bReadID {
      invoice.SetID(id);
    }
    var c := invoice.SetDeleted(deleted);
    c := invoice.SetIssueDate(issueDate);
    c := invoice.SetInvoiceNumber(invoiceNumber);
    c := invoice.SetInvoiceNote(invoiceNote);
  }

  /** The first part of readInvoice: the invoice built from the element's id, deleted flag and header texts. */
  method ReadInvoiceHeader(e: Element, cd: Codecs, bReadID: bool) returns (invoice: Invoices.ProcInvoice)
    ensures fresh(invoice) && invoice.Valid()
    ensures invoice.Value() == Invoices.InvoiceValue(ReadID(e, bReadID), ReadDeleted(e),
                                                     Parsed(cd.date, ChildText(e.children, "issuedate")),
                                                     ReadText(e.children, "invoicenumber", Invoices.LENGTH_INVOICENUMBER),
                                                     ReadText(e.children, "invoicenote", Invoices.LENGTH_INVOICENOTE),
                                                     None, None)
  {
    var cs := e.children;
    invoice := BuildInvoiceHeader(bReadID, ReadID(e, true), ReadDeleted(e), Parsed(cd.date, ChildText(cs, "issuedate")),
                                  ChildText(cs, "invoicenumber"), ChildText(cs, "invoicenote"));
  }

  /**
   * The first part of readInvoice: a new invoice with its header fields,
   * then its lines read in a loop and stored with setInvoiceLines (an empty
   * list stored as null).
   */
  method ReadInvoiceWithLines(e: Element, cd: Codecs, bReadID: bool) returns (r: Result<Invoices.ProcInvoice>)
    ensures var lines := ReadInvoiceLines(AllChildren(e.children, "invoiceline"), cd, ReadID(e, bReadID), bReadID);
            r.Ok? <==> lines.Ok?
    ensures var lines := ReadInvoiceLines(AllChildren(e.children, "invoiceline"), cd, ReadID(e, bReadID), bReadID);
            r.Err? ==> lines.Err? && r.error == lines.error
    ensures r.Ok? ==> fresh(r.value) && r.value.Valid()
    ensures var lines := ReadInvoiceLines(AllChildren(e.children, "invoiceline"), cd, ReadID(e, bReadID), bReadID);
            r.Ok? ==> r.value.Value()
                      == Invoices.InvoiceValue(ReadID(e, bReadID), ReadDeleted(e),
                                               Parsed(cd.date, ChildText(e.children, "issuedate")),
                                               ReadText(e.children, "invoicenumber", Invoices.LENGTH_INVOICENUMBER),
                                               ReadText(e.children, "invoicenote", Invoices.LENGTH_INVOICENOTE),
                                               NonEmpty(lines.value), None)
  {
    var invoice := ReadInvoiceHeader(e, cd, bReadID);
    var lines := ReadInvoiceLineList(AllChildren(e.children, "invoiceline"), cd, invoice, bReadID);
    if lines.Err? {
      return Err(lines.error);
    }
    var c := invoice.SetInvoiceLines(lines.value);
    r := Ok(invoice);
  }

  /**
   * readInvoice: a new invoice, its id and deleted flag, issue date, number
   * and note, then its lines and its attachments, each list read in a loop
   * and stored with its setter.
   */
  method ReadInvoiceObject(e: Element, cd: Codecs, newIDs: nat -> string, now: Attachments.DateTime,
                           handle: Attachments.Attachment -> Attachments.Attachment, bReadID: bool)
    returns (r: Result<Invoices.ProcInvoice>)
    ensures r.Ok? <==> ReadInvoice(e, cd, newIDs, now, handle, bReadID).Ok?
    ensures r.Err? ==> r.error == ReadInvoice(e, cd, newIDs, now, handle, bReadID).error
    ensures r.Ok? ==> fresh(r.value)
    ensures r.Ok? ==> r.value.Value() == ReadInvoice(e, cd, newIDs, now, handle, bReadID).value
    ensures r.Ok? ==> r.value.Valid()
  {
    ghost var lines := ReadInvoiceLines(AllChildren(e.children, "invoiceline"), cd, ReadID(e, bReadID), bReadID);
    var invoice := ReadInvoiceWithLines(e, cd, bReadID);
    if invoice.Err? {
      ReadInvoiceLinesFailed(e, cd, newIDs, now, handle, bReadID, lines);
      return Err(invoice.error);
    }
    var links := ReadLinkList(AllChildren(e.children, "attachment"), cd, newIDs, now, handle);
    if links.Err? {
      ReadInvoiceLinksFailed(e, cd, newIDs, now, handle, bReadID, lines.value, links);
      return Err(links.error);
    }
    var c := invoice.value.SetAttachments(links.value);
    ReadInvoiceOfLists(e, cd, newIDs, now, handle, bReadID, lines.value, links.value);
    r := invoice;
  }
}
