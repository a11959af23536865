/**
 * Orders (ProcOrder) and their items (ProcOrderItem): change-tracking
 * setters, lookups by id, and the order totals as null-skipping folds over
 * the item totals.
 */
module Orders {
  import opened Common
  import opened Money
  import opened Documents

  // Column lengths.
  const LENGTH_ORDER_NUMBER: nat := LENGTH_TEXT
  const LENGTH_DESCRIPTION: nat := LENGTH_TEXT_LONG
  const LENGTH_NOTE: nat := LENGTH_TEXT_LONG
  const LENGTH_COMMODITY_ID: nat := LENGTH_TEXT_LONG

  /** An order item as the order holds it. */
  datatype OrderItem = OrderItem(
    id: int,
    ownerID: int,
    description: Option<string>,
    note: Option<string>,
    quantity: int,
    unitPrice: Option<Price>,
    commodityScheme: Option<CommodityScheme>,
    commodityID: Option<string>)

  /** What the item setters guarantee about the text fields. */
  predicate ItemClamped(it: OrderItem)
  {
    FitsIn(it.description, LENGTH_DESCRIPTION) && FitsIn(it.note, LENGTH_NOTE)
    && FitsIn(it.commodityID, LENGTH_COMMODITY_ID)
  }

  /** The k-totals of the items, one per item and in order. */
  function ItemTotals(items: seq<OrderItem>, k: AmountKind): (r: seq<Option<int>>)
    ensures |r| == |items|
    ensures forall i :: 0 <= i < |items| ==> r[i] == LineTotal(items[i].unitPrice, items[i].quantity, k)
  {
    seq(|items|, i requires 0 <= i < |items| => LineTotal(items[i].unitPrice, items[i].quantity, k))
  }

  /** getTotalNetAmount / getTotalGrossAmount / getTotalTaxAmount of an order. */
  function OrderTotal(items: Option<seq<OrderItem>>, k: AmountKind): Option<int>
  {
    if items.None? then None else SumOpt(ItemTotals(items.value, k))
  }

  /**
   * An order total is the sum of the totals of the items that have one
   * (a unit price and a non-negative quantity), and null exactly when no
   * item has one.
   */
  lemma OrderTotalIsSumOfContributions(items: Option<seq<OrderItem>>, k: AmountKind)
    ensures OrderTotal(items, k).None? <==>
              items.None? || forall i :: 0 <= i < |items.value| ==>
                                 items.value[i].unitPrice.None? || items.value[i].quantity < 0
    ensures OrderTotal(items, k).Some? ==>
              OrderTotal(items, k).value == Sum(Present(ItemTotals(items.value, k)))
  {
    if items.Some? {
      var ts := ItemTotals(items.value, k);
      SumOptIsSumOfPresent(ts);
      SumOptNoneIffAllNone(ts);
    }
  }

  /** The gross total of an order is its net total plus its tax total. */
  lemma OrderGrossIsNetPlusTax(items: Option<seq<OrderItem>>)
    ensures OrderTotal(items, GrossAmount).None? <==> OrderTotal(items, NetAmount).None?
    ensures OrderTotal(items, TaxAmount).None? <==> OrderTotal(items, NetAmount).None?
    ensures OrderTotal(items, GrossAmount).Some? ==>
              OrderTotal(items, GrossAmount).value
              == OrderTotal(items, NetAmount).value + OrderTotal(items, TaxAmount).value
  {
    if items.Some? {
      var its := items.value;
      var net, tax, gross := ItemTotals(its, NetAmount), ItemTotals(its, TaxAmount), ItemTotals(its, GrossAmount);
      forall i | 0 <= i < |its|
        ensures (gross[i].None? <==> net[i].None?) && (tax[i].None? <==> net[i].None?)
        ensures gross[i].Some? ==> gross[i].value == net[i].value + tax[i].value
      {
        LineGrossIsNetPlusTax(its[i].unitPrice, its[i].quantity);
      }
      SumOptPointwise(net, tax, gross);
    }
  }

  /** The state of an order, field by field. */
  datatype OrderValue = OrderValue(
    id: int,
    deleted: bool,
    orderNumber: Option<string>,
    orderItems: Option<seq<OrderItem>>,
    issueDate: Option<LocalDate>,
    deliveryStartDate: Option<LocalDate>,
    deliveryEndDate: Option<LocalDate>,
    incoterm: Option<Incoterm>,
    attachments: Option<seq<LinkedAttachment>>)

  class ProcOrder {
    var id: int
    var deleted: bool
    var orderNumber: Option<string>
    var orderItems: Option<seq<OrderItem>>
    var issueDate: Option<LocalDate>
    var deliveryStartDate: Option<LocalDate>
    var deliveryEndDate: Option<LocalDate>
    var incoterm: Option<Incoterm>
    var attachments: Option<seq<LinkedAttachment>>

    function Value(): OrderValue
      reads this
    {
      OrderValue(id, deleted, orderNumber, orderItems, issueDate, deliveryStartDate, deliveryEndDate, incoterm,
                 attachments)
    }

    /** The order number fits its column and no list is stored empty. */
    ghost predicate Valid()
      reads this
    {
      FitsIn(orderNumber, LENGTH_ORDER_NUMBER)
      && (orderItems.Some? ==> |orderItems.value| > 0)
      && (attachments.Some? ==> |attachments.value| > 0)
    }

    constructor ()
      ensures Valid() && id == 0 && !deleted
      ensures orderNumber.None? && orderItems.None? && issueDate.None? && deliveryStartDate.None?
      ensures deliveryEndDate.None? && incoterm.None? && attachments.None?
    {
      id, deleted := 0, false;
      orderNumber, orderItems := None, None;
      issueDate, deliveryStartDate, deliveryEndDate, incoterm := None, None, None, None;
      attachments := None;
    }

    method SetID(n: int)
      modifies this`id
      ensures id == n
    {
      id := n;
    }

    method SetDeleted(b: bool) returns (c: Change)
      modifies this`deleted
      ensures deleted == b && c == ChangeOf(old(deleted), b)
    {
      if deleted == b {
        return Unchanged;
      }
      deleted := b;
      c := Changed;
    }

    method SetOrderNumber(s: Option<string>) returns (c: Change)
      requires Valid()
      modifies this`orderNumber
      ensures Valid() && (orderNumber, c) == ClampedSet(old(orderNumber), s, LENGTH_ORDER_NUMBER)
    {
      var clamped := EnsuredLength(s, LENGTH_ORDER_NUMBER);
      if clamped == orderNumber {
        return Unchanged;
      }
      orderNumber := clamped;
      c := Changed;
    }

    /** setOrderItems: an empty list is stored as null. */
    method SetOrderItems(items: seq<OrderItem>) returns (c: Change)
      requires Valid()
      modifies this`orderItems
      ensures Valid() && orderItems == NonEmpty(items)
      ensures c == ChangeOf(old(orderItems), orderItems)
    {
      var normalised := if |items| == 0 then None else Some(items);
      if orderItems == normalised {
        return Unchanged;
      }
      orderItems := normalised;
      c := Changed;
    }

    method SetIssueDate(d: Option<LocalDate>) returns (c: Change)
      modifies this`issueDate
      ensures issueDate == d && c == ChangeOf(old(issueDate), d)
    {
      if d == issueDate {
        return Unchanged;
      }
      issueDate := d;
      c := Changed;
    }

    method SetDeliveryStartDate(d: Option<LocalDate>) returns (c: Change)
      modifies this`deliveryStartDate
      ensures deliveryStartDate == d && c == ChangeOf(old(deliveryStartDate), d)
    {
      if d == deliveryStartDate {
        return Unchanged;
      }
      deliveryStartDate := d;
      c := Changed;
    }

    method SetDeliveryEndDate(d: Option<LocalDate>) returns (c: Change)
      modifies this`deliveryEndDate
      ensures deliveryEndDate == d && c == ChangeOf(old(deliveryEndDate), d)
    {
      if deliveryEndDate == d {
        return Unchanged;
      }
      deliveryEndDate := d;
      c := Changed;
    }

    method SetIncoterm(t: Option<Incoterm>) returns (c: Change)
      modifies this`incoterm
      ensures incoterm == t && c == ChangeOf(old(incoterm), t)
    {
      if incoterm == t {
        return Unchanged;
      }
      incoterm := t;
      c := Changed;
    }

    /** setAttachments: an empty list is stored as null. */
    method SetAttachments(links: seq<LinkedAttachment>) returns (c: Change)
      requires Valid()
      modifies this`attachments
      ensures Valid() && attachments == NonEmpty(links)
      ensures c == ChangeOf(old(attachments), attachments)
    {
      var normalised := if |links| == 0 then None else Some(links);
      if attachments == normalised {
        return Unchanged;
      }
      attachments := normalised;
      c := Changed;
    }

    /** getOrderItemOfID: the first item with that id, or null. */
    method GetOrderItemOfID(n: int) returns (r: Option<OrderItem>)
      ensures orderItems.None? ==> r.None?
      ensures orderItems.Some? ==>
                match FirstMatch(orderItems.value, (it: OrderItem) => it.id == n)
                case None => r.None?
                case Some(k) => r == Some(orderItems.value[k])
    {
      if orderItems.None? {
        return None;
      }
      var items := orderItems.value;
      var i := 0;
      while i < |items|
        invariant 0 <= i <= |items|
        invariant forall j :: 0 <= j < i ==> items[j].id != n
      {
        if items[i].id == n {
          return Some(items[i]);
        }
        i := i + 1;
      }
      r := None;
    }

    /** getAllAttachmentIDs: the ids of all linked attachments; empty without links. */
    method GetAllAttachmentIDs() returns (ids: set<string>)
      ensures attachments.None? ==> ids == {}
      ensures attachments.Some? ==> ids == AttachmentIDs(attachments.value)
    {
      ids := {};
      if attachments.None? {
        return;
      }
      var links := attachments.value;
      var i := 0;
      while i < |links|
        invariant 0 <= i <= |links|
        invariant ids == AttachmentIDs(links[..i])
      {
        assert links[..i + 1] == links[..i] + [links[i]];
        ids := ids + {links[i].attachmentID};
        i := i + 1;
      }
      assert links[..i] == links;
    }

    /** getAttachmentOfID: the first link with that database id, or null. */
    method GetAttachmentOfID(n: int) returns (r: Option<LinkedAttachment>)
      ensures attachments.None? ==> r.None?
      ensures attachments.Some? ==>
                match FirstMatch(attachments.value, (l: LinkedAttachment) => l.id == n)
                case None => r.None?
                case Some(k) => r == Some(attachments.value[k])
    {
      if attachments.None? {
        return None;
      }
      var links := attachments.value;
      var i := 0;
      while i < |links|
        invariant 0 <= i <= |links|
        invariant forall j :: 0 <= j < i ==> links[j].id != n
      {
        if links[i].id == n {
          return Some(links[i]);
        }
        i := i + 1;
      }
      r := None;
    }

    /**
     * getTotalNetAmount / getTotalGrossAmount / getTotalTaxAmount: the
     * item totals folded with _addOrCreate, starting from null.
     */
    method GetTotal(k: AmountKind) returns (r: Option<int>)
      ensures r == OrderTotal(orderItems, k)
    {
      r := None;
      if orderItems.None? {
        return;
      }
      var items := orderItems.value;
      var i := 0;
      while i < |items|
        invariant 0 <= i <= |items|
        invariant r == SumOpt(ItemTotals(items[..i], k))
      {
        var ts := ItemTotals(items[..i + 1], k);
        assert ts[..i] == ItemTotals(items[..i], k);
        r := AddOrCreate(r, LineTotal(items[i].unitPrice, items[i].quantity, k));
        i := i + 1;
      }
      assert items[..i] == items;
    }
  }

  /**
   * An order item. Its owner is the order it belongs to; the item's owner id
   * is that order's id, or ILLEGAL_UINT while it has none.
   */
  class ProcOrderItem {
    var id: int
    var owner: ProcOrder?
    var description: Option<string>
    var note: Option<string>
    var quantity: int
    var unitPrice: Option<Price>
    var commodityScheme: Option<CommodityScheme>
    var commodityID: Option<string>

    /** getOwnerID. */
    function OwnerID(): (r: int)
      reads this, owner
      ensures owner == null ==> r == ILLEGAL_UINT
      ensures owner != null ==> r == owner.id
    {
      if owner == null then ILLEGAL_UINT else owner.id
    }

    /** The item as its order holds it. */
    function Value(): OrderItem
      reads this, owner
    {
      OrderItem(id, OwnerID(), description, note, quantity, unitPrice, commodityScheme, commodityID)
    }

    /** The texts fit their columns: the item's value is ItemClamped. */
    ghost predicate Valid()
      reads this
    {
      FitsIn(description, LENGTH_DESCRIPTION) && FitsIn(note, LENGTH_NOTE) && FitsIn(commodityID, LENGTH_COMMODITY_ID)
    }

    /** new ProcOrderItem(): no owner, every field null or zero. */
    constructor ()
      ensures Valid() && owner == null && Value() == OrderItem(0, ILLEGAL_UINT, None, None, 0, None, None, None)
    {
      id, owner, quantity := 0, null, 0;
      description, note, unitPrice, commodityScheme, commodityID := None, None, None, None, None;
    }

    /** setOwner: a null owner is a null pointer. */
    method SetOwner(o: ProcOrder?) returns (r: Result<()>)
      modifies this`owner
      ensures o == null ==> r == Err(NullPointer("owner")) && owner == old(owner)
      ensures o != null ==> r == Ok(()) && owner == o
    {
      if o == null {
        return Err(NullPointer("owner"));
      }
      owner := o;
      r := Ok(());
    }

    method SetID(n: int)
      modifies this`id
      ensures id == n
    {
      id := n;
    }

    method SetDescription(s: Option<string>) returns (c: Change)
      requires Valid()
      modifies this`description
      ensures Valid() && (description, c) == ClampedSet(old(description), s, LENGTH_DESCRIPTION)
    {
      var clamped := EnsuredLength(s, LENGTH_DESCRIPTION);
      if description == clamped {
        return Unchanged;
      }
      description := clamped;
      c := Changed;
    }

    method SetNote(s: Option<string>) returns (c: Change)
      requires Valid()
      modifies this`note
      ensures Valid() && (note, c) == ClampedSet(old(note), s, LENGTH_NOTE)
    {
      var clamped := EnsuredLength(s, LENGTH_NOTE);
      if note == clamped {
        return Unchanged;
      }
      note := clamped;
      c := Changed;
    }

    method SetQuantity(n: int) returns (c: Change)
      modifies this`quantity
      ensures quantity == n && c == ChangeOf(old(quantity), n)
    {
      if quantity == n {
        return Unchanged;
      }
      quantity := n;
      c := Changed;
    }

    /** setUnitPrice(Price), the persistence variant: compare, then store. */
    method SetUnitPriceCompared(p: Option<Price>) returns (c: Change)
      modifies this`unitPrice
      ensures unitPrice == p && c == ChangeOf(old(unitPrice), p)
    {
      if p == unitPrice {
        return Unchanged;
      }
      unitPrice := p;
      c := Changed;
    }

    /** setUnitPrice(IReadonlyPrice): null is a null pointer; otherwise a copy is stored and CHANGED answered. */
    method SetUnitPrice(p: Option<Price>) returns (r: Result<Change>)
      modifies this`unitPrice
      ensures p.None? ==> r == Err(NullPointer("unitPrice")) && unitPrice == old(unitPrice)
      ensures p.Some? ==> r == Ok(Changed) && unitPrice == p
    {
      if p.None? {
        return Err(NullPointer("unitPrice"));
      }
      unitPrice := p;
      r := Ok(Changed);
    }

    method SetCommodityScheme(s: Option<CommodityScheme>) returns (c: Change)
      modifies this`commodityScheme
      ensures commodityScheme == s && c == ChangeOf(old(commodityScheme), s)
    {
      if s == commodityScheme {
        return Unchanged;
      }
      commodityScheme := s;
      c := Changed;
    }

    /** setCommodityID clamps with LENGTH_NOTE, which is the same length as LENGTH_COMMODITY_ID. */
    method SetCommodityID(s: Option<string>) returns (c: Change)
      requires Valid()
      modifies this`commodityID
      ensures Valid() && (commodityID, c) == ClampedSet(old(commodityID), s, LENGTH_COMMODITY_ID)
    {
      var clamped := EnsuredLength(s, LENGTH_NOTE);
      if clamped == commodityID {
        return Unchanged;
      }
      commodityID := clamped;
      c := Changed;
    }

    /** getTotalNetAmount / getTotalGrossAmount / getTotalTaxAmount of the item. */
    function Total(k: AmountKind): (r: Option<int>)
      reads this
      ensures r.None? <==> unitPrice.None? || quantity < 0
      ensures r.Some? ==> r.value == AmountOf(unitPrice.value, k) * quantity
    {
      LineTotal(unitPrice, quantity, k)
    }
  }
}
