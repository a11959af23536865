/**
 * SimpleProcSerializer: the plain XML form of customers, orders and invoices.
 * A writer appends one child per non-null field; a reader creates a fresh
 * object and feeds what it finds to the object's setters, so what it yields
 * is what those setters store. Conversions of dates, locales, code-list
 * values, MIME types, ID schemes and prices are parameters (Codecs); the
 * round-trip lemmas hold for every set of conversions that reads back what
 * it writes.
 */
module SimpleSerializer {
  import opened Common
  import opened Xml
  import Base64
  import Attachments
  import IdSchemes
  import opened Money
  import opened Documents
  import Parties
  import Customers
  import Orders
  import Invoices

  const ELEMENT_CUSTOMER := "customer"
  const ELEMENT_ORDER := "order"
  const ELEMENT_INVOICE := "invoice"

  // ---------------------------------------------------------------------
  // Conversions
  // ---------------------------------------------------------------------

  /** The converter of prices, which writes an element of the given name. */
  datatype PriceCodec = PriceCodec(toElement: (Price, string) -> Element, fromElement: Element -> Option<Price>)

  ghost predicate PriceRoundTrips(c: PriceCodec)
  {
    forall p, n :: c.toElement(p, n).name == n && c.fromElement(c.toElement(p, n)) == Some(p)
  }

  datatype Codecs = Codecs(
    scheme: TextCodec<IdSchemes.EntityIDScheme>,
    locale: TextCodec<Parties.Locale>,
    date: TextCodec<LocalDate>,
    incoterm: TextCodec<Incoterm>,
    commodityScheme: TextCodec<CommodityScheme>,
    taxCategory: TextCodec<TaxCategory>,
    mimeType: TextCodec<Attachments.MimeType>,
    price: PriceCodec)

  ghost predicate Faithful(cd: Codecs)
  {
    RoundTrips(cd.scheme) && RoundTrips(cd.locale) && RoundTrips(cd.date) && RoundTrips(cd.incoterm)
    && RoundTrips(cd.commodityScheme) && RoundTrips(cd.taxCategory) && RoundTrips(cd.mimeType)
    && PriceRoundTrips(cd.price)
  }

  // ---------------------------------------------------------------------
  // _writeObject / _readObject, _writeDeletableObject / _readDeletableObject
  // ---------------------------------------------------------------------

  /** The attribute _writeObject sets: the id in decimal. */
  function ObjectAttrs(id: int): (m: map<string, string>)
    ensures m.Keys == {"id"} && m["id"] == IntToString(id)
  {
    map["id" := IntToString(id)]
  }

  /** The attributes _writeDeletableObject sets: the id and the deleted flag. */
  function DeletableAttrs(id: int, deleted: bool): (m: map<string, string>)
    ensures m.Keys == {"id", "deleted"} && m["id"] == IntToString(id) && m["deleted"] == BoolToString(deleted)
  {
    ObjectAttrs(id)["deleted" := BoolToString(deleted)]
  }

  /**
   * The id _readObject leaves on a fresh object: read only when bReadID is
   * set, -1 when absent or not a number; otherwise the fresh object's 0.
   */
  function ReadID(e: Element, bReadID: bool): (r: int)
    ensures !bReadID ==> r == 0
    ensures bReadID && "id" !in e.attrs ==> r == ILLEGAL_UINT
    ensures (bReadID && "id" in e.attrs && DecimalValue(e.attrs["id"]).Some?
             && IsInt32(DecimalValue(e.attrs["id"]).value)) ==> r == DecimalValue(e.attrs["id"]).value
  {
    if bReadID then ParseInt(Attribute(e, "id"), ILLEGAL_UINT) else 0
  }

  /** The deleted flag _readDeletableObject sets: true only for "true", false when absent. */
  function ReadDeleted(e: Element): (r: bool)
    ensures "deleted" !in e.attrs ==> !r
  {
    ParseBool(Attribute(e, "deleted"), Parties.DEFAULT_DELETED)
  }

  /** The id and deleted flag written by _writeDeletableObject are read back. */
  lemma ReadDeletableOfWritten(e: Element, id: int, deleted: bool)
    requires IsInt32(id) && e.attrs == DeletableAttrs(id, deleted)
    ensures ReadID(e, true) == id && ReadDeleted(e) == deleted
  {
    ParseIntOfIntToString(id, ILLEGAL_UINT);
    ParseBoolOfBoolToString(deleted, Parties.DEFAULT_DELETED);
  }

  // ---------------------------------------------------------------------
  // _writeParty / _readParty
  // ---------------------------------------------------------------------

  const PARTY_NAMES: seq<string> :=
    ["entityid", "endpointid", "name", "address", "registrationname", "companyregistrationnumber", "vatin", "bic",
     "iban"]
  const ADDRESS_NAMES: seq<string> := ["street", "buildno", "postbox", "zipcode", "city", "country"]

  /** The entityid child: the scheme as an attribute and the id as text, each only when not null. */
  function EntityIDElement(p: Parties.PartyValue, cd: Codecs): (e: Element)
    ensures e.name == "entityid" && e.children == [] && e.text == p.entityID
    ensures Attribute(e, "scheme") == Formatted(cd.scheme, p.entityIDScheme)
  {
    var attrs: map<string, string> := if p.entityIDScheme.Some? then map["scheme" := cd.scheme.format(p.entityIDScheme.value)]
                                      else map[];
    Element("entityid", attrs, [], p.entityID)
  }

  function AddressSlots(p: Parties.PartyValue, cd: Codecs): (ss: seq<Slot>)
    ensures SlotNames(ss) == ADDRESS_NAMES && WellNamed(ss)
  {
    [TextSlot("street", p.street), TextSlot("buildno", p.buildingNumber), TextSlot("postbox", p.postbox),
     TextSlot("zipcode", p.zipCode), TextSlot("city", p.city), TextSlot("country", Formatted(cd.locale, p.country))]
  }

  /** The address child, always written, holding the non-null address fields. */
  function AddressElement(p: Parties.PartyValue, cd: Codecs): (e: Element)
    ensures e.name == "address"
  {
    Element("address", map[], SlotChildren(AddressSlots(p, cd)), None)
  }

  /** The children _writeParty appends, in its order. */
  function PartySlots(p: Parties.PartyValue, cd: Codecs): (ss: seq<Slot>)
    ensures SlotNames(ss) == PARTY_NAMES && WellNamed(ss)
  {
    [Slot("entityid", Some(EntityIDElement(p, cd))), TextSlot("endpointid", p.endpointID), TextSlot("name", p.name),
     Slot("address", Some(AddressElement(p, cd))), TextSlot("registrationname", p.registrationName),
     TextSlot("companyregistrationnumber", p.companyRegistrationNumber), TextSlot("vatin", p.vatin),
     TextSlot("bic", p.bic), TextSlot("iban", p.iban)]
  }

  /** What a clamping setter stores when fed the text of the first child called `name`. */
  function ReadText(cs: seq<Element>, name: string, max: nat): (r: Option<string>)
    ensures FitsIn(r, max)
  {
    EnsuredLength(ChildText(cs, name), max)
  }

  /**
   * _readParty: the party a fresh object holds after its setters were fed
   * the element's data. Without an entityid or an address child the reader
   * dereferences null.
   */
  function ReadParty(e: Element, cd: Codecs, bReadID: bool): (r: Result<Parties.PartyValue>)
    ensures r.Ok? <==> FirstChild(e.children, "entityid").Some? && FirstChild(e.children, "address").Some?
    ensures r.Ok? ==> Parties.Clamped(r.value)
    ensures r.Ok? ==> r.value.id == ReadID(e, bReadID) && r.value.deleted == ReadDeleted(e)
  {
    match FirstChild(e.children, "entityid")
    case None => Err(NullPointer("entityid"))
    case Some(eID) =>
      match FirstChild(e.children, "address")
      case None => Err(NullPointer("address"))
      case Some(eAddress) =>
        var cs, ac := e.children, eAddress.children;
        Ok(Parties.PartyValue(
             ReadID(e, bReadID), ReadDeleted(e),
             Parsed(cd.scheme, Attribute(eID, "scheme")),
             EnsuredLength(eID.text, Parties.LENGTH_ENTITYID),
             ReadText(cs, "endpointid", Parties.LENGTH_ENDPOINTID),
             ReadText(cs, "name", Parties.LENGTH_NAME),
             ReadText(ac, "street", Parties.LENGTH_STREET),
             ReadText(ac, "buildno", Parties.LENGTH_BUILDINGNUMBER),
             ReadText(ac, "postbox", Parties.LENGTH_POSTBOX),
             ReadText(ac, "zipcode", Parties.LENGTH_ZIPCODE),
             ReadText(ac, "city", Parties.LENGTH_CITY),
             Parsed(cd.locale, ChildText(ac, "country")),
             ReadText(cs, "registrationname", Parties.LENGTH_REGISTRATIONNAME),
             ReadText(cs, "companyregistrationnumber", Parties.LENGTH_COMPANYREGISTRATIONNUMBER),
             ReadText(cs, "vatin", Parties.LENGTH_VATIN),
             ReadText(cs, "bic", Parties.LENGTH_BIC),
             ReadText(cs, "iban", Parties.LENGTH_IBAN)))
  }

  lemma PartyNamesDistinct()
    ensures DistinctNames(PARTY_NAMES)
  {
  }

  lemma AddressNamesDistinct()
    ensures DistinctNames(ADDRESS_NAMES)
  {
  }

  /** The address fields written by _writeParty are read back. */
  lemma ReadAddressOfWritten(p: Parties.PartyValue, cd: Codecs)
    requires RoundTrips(cd.locale)
    ensures var cs := AddressElement(p, cd).children;
            ChildText(cs, "street") == p.street && ChildText(cs, "buildno") == p.buildingNumber
            && ChildText(cs, "postbox") == p.postbox && ChildText(cs, "zipcode") == p.zipCode
            && ChildText(cs, "city") == p.city && Parsed(cd.locale, ChildText(cs, "country")) == p.country
  {
    var ss := AddressSlots(p, cd);
    var cs := AddressElement(p, cd).children;
    AddressNamesDistinct();
    assert cs == SlotChildren(ss) + [];
    assert ChildText(cs, "street") == p.street by { TextSlotFind(ss, "street", p.street, []); }
    assert ChildText(cs, "buildno") == p.buildingNumber by { TextSlotFind(ss, "buildno", p.buildingNumber, []); }
    assert ChildText(cs, "postbox") == p.postbox by { TextSlotFind(ss, "postbox", p.postbox, []); }
    assert ChildText(cs, "zipcode") == p.zipCode by { TextSlotFind(ss, "zipcode", p.zipCode, []); }
    assert ChildText(cs, "city") == p.city by { TextSlotFind(ss, "city", p.city, []); }
    assert ChildText(cs, "country") == Formatted(cd.locale, p.country) by {
      TextSlotFind(ss, "country", Formatted(cd.locale, p.country), []);
    }
    ParsedFormatted(cd.locale, p.country);
  }

  /** The text children of a written party read back as the party's texts. */
  lemma ReadPartyTextsOfWritten(p: Parties.PartyValue, cd: Codecs, rest: seq<Element>)
    requires Parties.Clamped(p)
    requires forall c :: c in rest ==> c.name !in PARTY_NAMES
    ensures var cs := SlotChildren(PartySlots(p, cd)) + rest;
            ReadText(cs, "endpointid", Parties.LENGTH_ENDPOINTID) == p.endpointID
            && ReadText(cs, "name", Parties.LENGTH_NAME) == p.name
            && ReadText(cs, "registrationname", Parties.LENGTH_REGISTRATIONNAME) == p.registrationName
            && ReadText(cs, "companyregistrationnumber", Parties.LENGTH_COMPANYREGISTRATIONNUMBER)
               == p.companyRegistrationNumber
            && ReadText(cs, "vatin", Parties.LENGTH_VATIN) == p.vatin
            && ReadText(cs, "bic", Parties.LENGTH_BIC) == p.bic
            && ReadText(cs, "iban", Parties.LENGTH_IBAN) == p.iban
  {
    var ss := PartySlots(p, cd);
    PartyNamesDistinct();
    TextSlotFind(ss, "endpointid", p.endpointID, rest);
    TextSlotFind(ss, "name", p.name, rest);
    TextSlotFind(ss, "registrationname", p.registrationName, rest);
    TextSlotFind(ss, "companyregistrationnumber", p.companyRegistrationNumber, rest);
    TextSlotFind(ss, "vatin", p.vatin, rest);
    TextSlotFind(ss, "bic", p.bic, rest);
    TextSlotFind(ss, "iban", p.iban, rest);
  }

  /**
   * Whatever follows the party's children, as long as no party child name
   * is reused: every field _writeParty wrote is read back by _readParty.
   */
  lemma ReadPartyOfWritten(p: Parties.PartyValue, cd: Codecs, rest: seq<Element>, name: string)
    requires RoundTrips(cd.scheme) && RoundTrips(cd.locale)
    requires Parties.Clamped(p) && IsInt32(p.id)
    requires forall c :: c in rest ==> c.name !in PARTY_NAMES
    ensures ReadParty(Element(name, DeletableAttrs(p.id, p.deleted), SlotChildren(PartySlots(p, cd)) + rest, None),
                      cd, true) == Ok(p)
  {
    var e := Element(name, DeletableAttrs(p.id, p.deleted), SlotChildren(PartySlots(p, cd)) + rest, None);
    var ss := PartySlots(p, cd);
    PartyNamesDistinct();
    var cs := e.children;
    ReadDeletableOfWritten(e, p.id, p.deleted);
    assert FirstChild(cs, "entityid") == Some(EntityIDElement(p, cd)) by { SlotFind(ss, Slot("entityid", Some(EntityIDElement(p, cd))), rest); }
    assert FirstChild(cs, "address") == Some(AddressElement(p, cd)) by { SlotFind(ss, Slot("address", Some(AddressElement(p, cd))), rest); }
    ReadPartyTextsOfWritten(p, cd, rest);
    ReadAddressOfWritten(p, cd);
    ParsedFormatted(cd.scheme, p.entityIDScheme);
  }

  // ---------------------------------------------------------------------
  // writeCustomer / readCustomer
  // ---------------------------------------------------------------------

  /** A paymentterm child: the id and days as attributes, the description as a child when not null. */
  function PaymentTermElement(t: Customers.PaymentTerm): (e: Element)
    ensures e.name == "paymentterm"
  {
    Element("paymentterm", ObjectAttrs(t.id)["days" := IntToString(t.days)],
            SlotChildren([TextSlot("description", t.description)]), None)
  }

  function PaymentTermElements(terms: Option<seq<Customers.PaymentTerm>>): (es: seq<Element>)
    ensures terms.None? ==> es == []
    ensures terms.Some? ==> |es| == |terms.value|
                            && forall i :: 0 <= i < |es| ==> es[i] == PaymentTermElement(terms.value[i])
  {
    if terms.None? then [] else seq(|terms.value|, i requires 0 <= i < |terms.value| => PaymentTermElement(terms.value[i]))
  }

  /** Of the party's children, the client and the payment terms, only the terms are called paymentterm. */
  lemma CustomerTermChildren(party: seq<Element>, client: Element, c: Customers.CustomerValue, cd: Codecs)
    requires party == SlotChildren(PartySlots(c.party, cd)) && client.name == "client"
    ensures AllChildren(party + ([client] + PaymentTermElements(c.paymentTerms)), "paymentterm")
            == PaymentTermElements(c.paymentTerms)
  {
    var terms := PaymentTermElements(c.paymentTerms);
    SlotChildrenOthers(PartySlots(c.party, cd), "paymentterm");
    AllChildrenAppend(party, [client] + terms, "paymentterm");
    AllChildrenAppend([client], terms, "paymentterm");
    AllChildrenOfUniform(terms, "paymentterm");
  }

  /** writeCustomer: the party, the client, then one paymentterm child per term. */
  function WriteCustomer(c: Customers.CustomerValue, cd: Codecs): (e: Element)
    ensures e.name == ELEMENT_CUSTOMER
    ensures AllChildren(e.children, "paymentterm") == PaymentTermElements(c.paymentTerms)
  {
    var party := SlotChildren(PartySlots(c.party, cd));
    var terms := PaymentTermElements(c.paymentTerms);
    CustomerTermChildren(party, TextElement("client", IntToString(c.client)), c, cd);
    Element(ELEMENT_CUSTOMER, DeletableAttrs(c.party.id, c.party.deleted),
            party + ([TextElement("client", IntToString(c.client))] + terms), None)
  }

  /** A payment term read from its element for the customer with id ownerID. */
  function ReadPaymentTerm(e: Element, ownerID: int, bReadID: bool): (t: Customers.PaymentTerm)
    ensures t.ownerID == ownerID && t.id == ReadID(e, bReadID)
    ensures FitsIn(t.description, Customers.LENGTH_PAYMENTTERM_DESCRIPTION)
    ensures "days" !in e.attrs ==> t.days == -1
  {
    Customers.PaymentTerm(ReadID(e, bReadID), ownerID,
                          EnsuredLength(ChildText(e.children, "description"), Customers.LENGTH_PAYMENTTERM_DESCRIPTION),
                          ParseInt(Attribute(e, "days"), -1))
  }

  /** The payment terms read from their elements, in document order, all owned by the customer. */
  function ReadPaymentTerms(es: seq<Element>, ownerID: int, bReadID: bool): (ts: seq<Customers.PaymentTerm>)
    ensures |ts| == |es| && forall i :: 0 <= i < |es| ==> ts[i] == ReadPaymentTerm(es[i], ownerID, bReadID)
    ensures forall i :: 0 <= i < |ts| ==> ts[i].ownerID == ownerID
  {
    seq(|es|, i requires 0 <= i < |es| => ReadPaymentTerm(es[i], ownerID, bReadID))
  }

  /**
   * readCustomer: the party, then the client (missing or unparsable is -1,
   * which setClient rejects), then the payment terms in document order, an
   * empty list being stored as null.
   */
  function ReadCustomer(e: Element, cd: Codecs, bReadID: bool): (r: Result<Customers.CustomerValue>)
    ensures ReadParty(e, cd, bReadID).Err? ==> r == Err(ReadParty(e, cd, bReadID).error)
    ensures ReadParty(e, cd, bReadID).Ok? && ChildText(e.children, "client").None? ==> r == Err(IllegalArgument("email"))
    ensures r.Ok? ==> Parties.Clamped(r.value.party) && r.value.client >= 0
    ensures r.Ok? && r.value.paymentTerms.Some? ==>
              r.value.paymentTerms.value == ReadPaymentTerms(AllChildren(e.children, "paymentterm"), r.value.party.id, bReadID)
              && |r.value.paymentTerms.value| > 0
  {
    match ReadParty(e, cd, bReadID)
    case Err(err) => Err(err)
    case Ok(p) =>
      var client := ParseInt(ChildText(e.children, "client"), ILLEGAL_UINT);
      if client < 0 then Err(IllegalArgument("email"))
      else Ok(Customers.CustomerValue(p, client, NonEmpty(ReadPaymentTerms(AllChildren(e.children, "paymentterm"), p.id, bReadID))))
  }

  /** What a customer must hold for its written form to read back as itself. */
  predicate CustomerWritable(c: Customers.CustomerValue)
  {
    Parties.Clamped(c.party) && IsInt32(c.party.id) && 0 <= c.client && IsInt32(c.client)
    && (c.paymentTerms.Some? ==>
          |c.paymentTerms.value| > 0
          && forall t :: t in c.paymentTerms.value ==>
               t.ownerID == c.party.id && IsInt32(t.id) && IsInt32(t.days)
               && FitsIn(t.description, Customers.LENGTH_PAYMENTTERM_DESCRIPTION))
  }

  /** A payment term written by writeCustomer is read back (percentage aside). */
  lemma ReadPaymentTermOfWritten(t: Customers.PaymentTerm)
    requires IsInt32(t.id) && IsInt32(t.days) && FitsIn(t.description, Customers.LENGTH_PAYMENTTERM_DESCRIPTION)
    ensures ReadPaymentTerm(PaymentTermElement(t), t.ownerID, true) == t
  {
    var e := PaymentTermElement(t);
    ParseIntOfIntToString(t.id, ILLEGAL_UINT);
    ParseIntOfIntToString(t.days, -1);
    assert Attribute(e, "id") == Some(IntToString(t.id));
    assert SlotChildren([TextSlot("description", t.description)]) + [] == e.children;
    TextSlotLookup([TextSlot("description", t.description)], 0, [], t.description);
  }

  lemma NotPartyNames()
    ensures "client" !in PARTY_NAMES && "paymentterm" !in PARTY_NAMES
  {
  }

  /** readCustomer(writeCustomer(c), true) is c again. */
  lemma ReadCustomerOfWritten(c: Customers.CustomerValue, cd: Codecs)
    requires RoundTrips(cd.scheme) && RoundTrips(cd.locale)
    requires CustomerWritable(c)
    ensures ReadCustomer(WriteCustomer(c, cd), cd, true) == Ok(c)
  {
    var e := WriteCustomer(c, cd);
    ReadCustomerHeadOfWritten(c, cd);
    ParseIntOfIntToString(c.client, ILLEGAL_UINT);
    assert NonEmpty(ReadPaymentTerms(AllChildren(e.children, "paymentterm"), c.party.id, true)) == c.paymentTerms by {
      if c.paymentTerms.Some? {
        ReadPaymentTermsOfWritten(c);
      }
    }
  }

  /** The party and the client of a written customer read back as the customer's. */
  lemma ReadCustomerHeadOfWritten(c: Customers.CustomerValue, cd: Codecs)
    requires RoundTrips(cd.scheme) && RoundTrips(cd.locale)
    requires CustomerWritable(c)
    ensures ReadParty(WriteCustomer(c, cd), cd, true) == Ok(c.party)
    ensures ChildText(WriteCustomer(c, cd).children, "client") == Some(IntToString(c.client))
  {
    var e := WriteCustomer(c, cd);
    var terms := PaymentTermElements(c.paymentTerms);
    var party := SlotChildren(PartySlots(c.party, cd));
    var client := TextElement("client", IntToString(c.client));
    assert e.children == party + ([client] + terms);
    assert e.attrs == DeletableAttrs(c.party.id, c.party.deleted);
    NotPartyNames();
    assert ReadParty(e, cd, true) == Ok(c.party) by {
      ReadPartyOfWritten(c.party, cd, [client] + terms, ELEMENT_CUSTOMER);
    }
    SlotChildrenOthers(PartySlots(c.party, cd), "client");
    FirstChildSkip(party, [client] + terms, "client");
  }

  /** The payment terms writeCustomer writes read back as the customer's terms. */
  lemma ReadPaymentTermsOfWritten(c: Customers.CustomerValue)
    requires CustomerWritable(c) && c.paymentTerms.Some?
    ensures ReadPaymentTerms(PaymentTermElements(c.paymentTerms), c.party.id, true) == c.paymentTerms.value
  {
    var ts, terms := c.paymentTerms.value, PaymentTermElements(c.paymentTerms);
    forall i | 0 <= i < |ts|
      ensures ReadPaymentTerm(terms[i], c.party.id, true) == ts[i]
    {
      assert ts[i] in ts;
      ReadPaymentTermOfWritten(ts[i]);
    }
  }

  // ---------------------------------------------------------------------
  // _writeAttachment / _readAttachment
  // ---------------------------------------------------------------------

  /** The column length of an attachment link's attachment id. */
  const LENGTH_ATTACHMENTID: nat := LENGTH_TEXT

  /** _writeAttachment: the title, the MIME type when known, and the Base64 text of the content. */
  function AttachmentElement(a: Attachments.Attachment, cd: Codecs): (e: Element)
    ensures e.name == "attachment"
    ensures Attribute(e, "title") == Some(a.title)
    ensures Attribute(e, "mimetype") == Formatted(cd.mimeType, a.mimeType)
    ensures e.text.Some? && Base64.Decode(e.text.value) == Some(Attachments.Content(a))
  {
    var attrs := map["title" := a.title];
    Element("attachment", if a.mimeType.Some? then attrs["mimetype" := cd.mimeType.format(a.mimeType.value)] else attrs,
            [], Some(Attachments.Base64Encoded(a)))
  }

  /** The attachments the manager finds for the links, in link order; ids it does not know are skipped. */
  function Resolved(links: seq<LinkedAttachment>, resolve: string -> Option<Attachments.ProcAttachment>)
    : (r: seq<Attachments.ProcAttachment>)
    ensures |r| <= |links|
    decreases |links|
  {
    if |links| == 0 then []
    else
      var last := links[|links| - 1];
      Resolved(links[..|links| - 1], resolve) + (if resolve(last.attachmentID).Some? then [resolve(last.attachmentID).value] else [])
  }

  /** When every link resolves, one attachment is written per link, in link order. */
  lemma {:induction false} ResolvedAll(links: seq<LinkedAttachment>, resolve: string -> Option<Attachments.ProcAttachment>)
    requires forall i :: 0 <= i < |links| ==> resolve(links[i].attachmentID).Some?
    ensures |Resolved(links, resolve)| == |links|
    ensures forall i :: 0 <= i < |links| ==> Resolved(links, resolve)[i] == resolve(links[i].attachmentID).value
    decreases |links|
  {
    if |links| > 0 {
      ResolvedAll(links[..|links| - 1], resolve);
    }
  }

  /** The attachment children of a document: one per link the manager resolves. */
  function AttachmentElements(links: Option<seq<LinkedAttachment>>, resolve: string -> Option<Attachments.ProcAttachment>,
                              cd: Codecs): (es: seq<Element>)
    ensures links.None? ==> es == []
    ensures links.Some? ==> |es| == |Resolved(links.value, resolve)|
                            && forall i :: 0 <= i < |es| ==> es[i] == AttachmentElement(Resolved(links.value, resolve)[i], cd)
    ensures forall i :: 0 <= i < |es| ==> es[i].name == "attachment"
  {
    if links.None? then []
    else
      var rs := Resolved(links.value, resolve);
      seq(|rs|, i requires 0 <= i < |rs| => AttachmentElement(rs[i], cd))
  }

  /**
   * _readAttachment: a new in-memory attachment with the generated id, the
   * title, the parsed MIME type, the upload time `now` and the decoded
   * content; a missing title or undecodable content fails its constructor.
   */
  function ReadAttachment(e: Element, cd: Codecs, newID: string, now: Attachments.DateTime)
    : (r: Result<Attachments.ProcAttachment>)
    ensures r.Ok? ==> r.value.id == newID && Attribute(e, "title") == Some(r.value.title) && r.value.uploadDT == now
    ensures r.Ok? ==> r.value.body.InMemory? && e.text.Some? && Base64.Decode(e.text.value) == Some(Attachments.Content(r.value))
    ensures Attribute(e, "title").None? ==> r.Err?
  {
    var data := if e.text.None? then None else Base64.Decode(e.text.value);
    Attachments.NewInMemory(Some(newID), Attribute(e, "title"), Parsed(cd.mimeType, Attribute(e, "mimetype")), data, now)
  }

  /** The in-memory attachment a reader makes of a: its title, MIME type and bytes under a new id. */
  function InMemoryCopy(a: Attachments.Attachment, newID: string, now: Attachments.DateTime): Attachments.Attachment
  {
    Attachments.Attachment(newID, a.title, a.mimeType, now, Attachments.InMemory(Attachments.Content(a)))
  }

  /** A written attachment reads back with the same title, MIME type and content. */
  lemma ReadAttachmentOfWritten(a: Attachments.ProcAttachment, cd: Codecs, newID: string, now: Attachments.DateTime)
    requires RoundTrips(cd.mimeType) && |newID| > 0
    ensures ReadAttachment(AttachmentElement(a, cd), cd, newID, now).Ok?
    ensures ReadAttachment(AttachmentElement(a, cd), cd, newID, now).value == InMemoryCopy(a, newID, now)
  {
    ParsedFormatted(cd.mimeType, a.mimeType);
  }

  /** The link to the attachment the read handler makes of a: link id 0 and the handler's attachment id, clamped. */
  function LinkTo(a: Attachments.Attachment, handle: Attachments.Attachment -> Attachments.Attachment)
    : (l: LinkedAttachment)
    ensures l.id == 0 && |l.attachmentID| <= LENGTH_ATTACHMENTID
    ensures |handle(a).id| <= LENGTH_ATTACHMENTID ==> l.attachmentID == handle(a).id
  {
    LinkedAttachment(0, EnsuredLength(Some(handle(a).id), LENGTH_ATTACHMENTID).value)
  }

  /**
   * What readOrder and readInvoice link for one attachment child: the
   * attachment read, passed through the read handler, and linked by the
   * handler's id.
   */
  function ReadLink(e: Element, cd: Codecs, newID: string, now: Attachments.DateTime,
                    handle: Attachments.Attachment -> Attachments.Attachment): (r: Result<LinkedAttachment>)
    ensures r.Ok? <==> ReadAttachment(e, cd, newID, now).Ok?
    ensures r.Ok? ==> r.value == LinkTo(ReadAttachment(e, cd, newID, now).value, handle)
  {
    match ReadAttachment(e, cd, newID, now)
    case Err(err) => Err(err)
    case Ok(a) => Ok(LinkTo(a, handle))
  }

  /** The links of all attachment children, the i-th one read under the i-th generated id. */
  function ReadLinks(es: seq<Element>, cd: Codecs, newIDs: nat -> string, now: Attachments.DateTime,
                     handle: Attachments.Attachment -> Attachments.Attachment): (r: Result<seq<LinkedAttachment>>)
    ensures r.Ok? ==> |r.value| == |es| && forall i :: 0 <= i < |es| ==> ReadLink(es[i], cd, newIDs(i), now, handle) == Ok(r.value[i])
    ensures r.Ok? <==> forall i :: 0 <= i < |es| ==> ReadLink(es[i], cd, newIDs(i), now, handle).Ok?
    ensures r.Err? ==> exists i :: 0 <= i < |es| && ReadLink(es[i], cd, newIDs(i), now, handle) == Err(r.error)
                                   && forall j :: 0 <= j < i ==> ReadLink(es[j], cd, newIDs(j), now, handle).Ok?
  {
    MapResult(es, (i: nat, x: Element) => ReadLink(x, cd, newIDs(i), now, handle))
  }

  /** The attachment loop stops at the first child that cannot be read, with that child's error. */
  lemma ReadLinksFirstError(es: seq<Element>, cd: Codecs, newIDs: nat -> string, now: Attachments.DateTime,
                            handle: Attachments.Attachment -> Attachments.Attachment, i: nat)
    requires i < |es| && ReadLink(es[i], cd, newIDs(i), now, handle).Err?
    requires forall j :: 0 <= j < i ==> ReadLink(es[j], cd, newIDs(j), now, handle).Ok?
    ensures ReadLinks(es, cd, newIDs, now, handle) == Err(ReadLink(es[i], cd, newIDs(i), now, handle).error)
  {
    var r := ReadLinks(es, cd, newIDs, now, handle);
    var k :| 0 <= k < |es| && ReadLink(es[k], cd, newIDs(k), now, handle) == Err(r.error)
             && forall j :: 0 <= j < k ==> ReadLink(es[j], cd, newIDs(j), now, handle).Ok?;
    assert k == i;
  }

  /** When every attachment child is read, the loop yields their links in order. */
  lemma ReadLinksAllRead(es: seq<Element>, cd: Codecs, newIDs: nat -> string, now: Attachments.DateTime,
                         handle: Attachments.Attachment -> Attachments.Attachment, links: seq<LinkedAttachment>)
    requires |links| == |es|
    requires forall j :: 0 <= j < |es| ==> ReadLink(es[j], cd, newIDs(j), now, handle) == Ok(links[j])
    ensures ReadLinks(es, cd, newIDs, now, handle) == Ok(links)
  {
    var r := ReadLinks(es, cd, newIDs, now, handle);
    assert r.Ok?;
    assert r.value == links;
  }

  /** The links a reader makes of the written attachment children of `links`. */
  function ExpectedLinks(links: Option<seq<LinkedAttachment>>, resolve: string -> Option<Attachments.ProcAttachment>,
                         newIDs: nat -> string, now: Attachments.DateTime,
                         handle: Attachments.Attachment -> Attachments.Attachment): Option<seq<LinkedAttachment>>
  {
    if links.None? then None
    else
      var rs := Resolved(links.value, resolve);
      NonEmpty(seq(|rs|, i requires 0 <= i < |rs| => LinkTo(InMemoryCopy(rs[i], newIDs(i), now), handle)))
  }

  /**
   * Reading the written attachment children yields one link per resolved
   * attachment, in order, each to the handler's result for an in-memory copy
   * of that attachment.
   */
  lemma ReadLinksOfWritten(links: Option<seq<LinkedAttachment>>, resolve: string -> Option<Attachments.ProcAttachment>,
                           cd: Codecs, newIDs: nat -> string, now: Attachments.DateTime,
                           handle: Attachments.Attachment -> Attachments.Attachment)
    requires RoundTrips(cd.mimeType) && forall i: nat :: |newIDs(i)| > 0
    ensures ReadLinks(AttachmentElements(links, resolve, cd), cd, newIDs, now, handle).Ok?
    ensures NonEmpty(ReadLinks(AttachmentElements(links, resolve, cd), cd, newIDs, now, handle).value)
            == ExpectedLinks(links, resolve, newIDs, now, handle)
  {
    var es := AttachmentElements(links, resolve, cd);
    if links.Some? {
      var rs := Resolved(links.value, resolve);
      var expected := seq(|rs|, i requires 0 <= i < |rs| => LinkTo(InMemoryCopy(rs[i], newIDs(i), now), handle));
      forall i | 0 <= i < |es|
        ensures ReadLink(es[i], cd, newIDs(i), now, handle) == Ok(expected[i])
      {
        ReadAttachmentOfWritten(rs[i], cd, newIDs(i), now);
      }
      var r := ReadLinks(es, cd, newIDs, now, handle);
      assert r.Ok?;
      assert r.value == expected;
    }
  }

  // ---------------------------------------------------------------------
  // writeOrder / readOrder
  // ---------------------------------------------------------------------

  const ORDER_NAMES: seq<string> := ["ordernumber", "issuedate", "deliverystartdate", "deliveryenddate", "incoterm"]
  const ORDER_ITEM_NAMES: seq<string> := ["description", "note", "quantity", "unitprice", "commodityscheme", "commodityid"]

  /** The unit price child, written only when there is a price. */
  function PriceSlot(p: Option<Price>, cd: Codecs): (s: Slot)
    ensures s.name == "unitprice" && (s.element.Some? <==> p.Some?)
  {
    Slot("unitprice", if p.Some? then Some(cd.price.toElement(p.value, "unitprice")) else None)
  }

  /** The price a reader passes to setUnitPrice: none without a unitprice child or when the converter fails. */
  function ReadUnitPrice(cs: seq<Element>, cd: Codecs): Option<Price>
  {
    match FirstChild(cs, "unitprice")
    case None => None
    case Some(pe) => cd.price.fromElement(pe)
  }

  function OrderItemSlots(it: Orders.OrderItem, cd: Codecs): (ss: seq<Slot>)
    ensures SlotNames(ss) == ORDER_ITEM_NAMES
    ensures PriceRoundTrips(cd.price) ==> WellNamed(ss)
  {
    [TextSlot("description", it.description), TextSlot("note", it.note),
     TextSlot("quantity", Some(IntToString(it.quantity))), PriceSlot(it.unitPrice, cd),
     TextSlot("commodityscheme", Formatted(cd.commodityScheme, it.commodityScheme)),
     TextSlot("commodityid", it.commodityID)]
  }

  /** An orderitem child: the id, then the non-null fields and the quantity, which is always written. */
  function OrderItemElement(it: Orders.OrderItem, cd: Codecs): (e: Element)
    ensures e.name == "orderitem"
  {
    Element("orderitem", ObjectAttrs(it.id), SlotChildren(OrderItemSlots(it, cd)), None)
  }

  /**
   * An order item read for the order with id ownerID: a missing quantity is
   * -1, and a missing or unreadable unit price fails setUnitPrice.
   */
  function ReadOrderItem(e: Element, cd: Codecs, ownerID: int, bReadID: bool): (r: Result<Orders.OrderItem>)
    ensures r.Ok? <==> ReadUnitPrice(e.children, cd).Some?
    ensures r.Err? ==> r == Err(NullPointer("unitPrice"))
    ensures r.Ok? ==> Orders.ItemClamped(r.value) && r.value.ownerID == ownerID && r.value.id == ReadID(e, bReadID)
                      && r.value.unitPrice == ReadUnitPrice(e.children, cd)
    ensures r.Ok? && ChildText(e.children, "quantity").None? ==> r.value.quantity == -1
  {
    var cs := e.children;
    var price := ReadUnitPrice(cs, cd);
    if price.None? then Err(NullPointer("unitPrice"))
    else
      Ok(Orders.OrderItem(ReadID(e, bReadID), ownerID,
                          ReadText(cs, "description", Orders.LENGTH_DESCRIPTION),
                          ReadText(cs, "note", Orders.LENGTH_NOTE),
                          ParseInt(ChildText(cs, "quantity"), -1),
                          price,
                          Parsed(cd.commodityScheme, ChildText(cs, "commodityscheme")),
                          ReadText(cs, "commodityid", Orders.LENGTH_COMMODITY_ID)))
  }

  /** What an order item must hold to read back as itself. */
  predicate ItemWritable(it: Orders.OrderItem, ownerID: int)
  {
    Orders.ItemClamped(it) && IsInt32(it.id) && IsInt32(it.quantity) && it.unitPrice.Some? && it.ownerID == ownerID
  }

  lemma OrderItemNamesDistinct()
    ensures DistinctNames(ORDER_ITEM_NAMES)
  {
  }

  /** A written order item reads back as itself. */
  lemma ReadOrderItemOfWritten(it: Orders.OrderItem, cd: Codecs)
    requires RoundTrips(cd.commodityScheme) && PriceRoundTrips(cd.price)
    requires ItemWritable(it, it.ownerID)
    ensures ReadOrderItem(OrderItemElement(it, cd), cd, it.ownerID, true) == Ok(it)
  {
    var e := OrderItemElement(it, cd);
    var ss := OrderItemSlots(it, cd);
    var cs := e.children;
    OrderItemNamesDistinct();
    assert cs == SlotChildren(ss) + [];
    ParseIntOfIntToString(it.id, ILLEGAL_UINT);
    assert Attribute(e, "id") == Some(IntToString(it.id));
    assert ReadText(cs, "description", Orders.LENGTH_DESCRIPTION) == it.description by {
      TextSlotFind(ss, "description", it.description, []);
    }
    assert ReadText(cs, "note", Orders.LENGTH_NOTE) == it.note by { TextSlotFind(ss, "note", it.note, []); }
    assert ParseInt(ChildText(cs, "quantity"), -1) == it.quantity by {
      TextSlotFind(ss, "quantity", Some(IntToString(it.quantity)), []);
      ParseIntOfIntToString(it.quantity, -1);
    }
    assert ReadUnitPrice(cs, cd) == it.unitPrice by { SlotFind(ss, PriceSlot(it.unitPrice, cd), []); }
    assert Parsed(cd.commodityScheme, ChildText(cs, "commodityscheme")) == it.commodityScheme by {
      TextSlotFind(ss, "commodityscheme", Formatted(cd.commodityScheme, it.commodityScheme), []);
      ParsedFormatted(cd.commodityScheme, it.commodityScheme);
    }
    assert ReadText(cs, "commodityid", Orders.LENGTH_COMMODITY_ID) == it.commodityID by {
      TextSlotFind(ss, "commodityid", it.commodityID, []);
    }
  }

  function OrderItemElements(items: Option<seq<Orders.OrderItem>>, cd: Codecs): (es: seq<Element>)
    ensures items.None? ==> es == []
    ensures items.Some? ==> |es| == |items.value|
                            && forall i :: 0 <= i < |es| ==> es[i] == OrderItemElement(items.value[i], cd)
    ensures forall i :: 0 <= i < |es| ==> es[i].name == "orderitem"
  {
    if items.None? then [] else seq(|items.value|, i requires 0 <= i < |items.value| => OrderItemElement(items.value[i], cd))
  }

  /** The items of all orderitem children, in document order; the first unreadable one fails the read. */
  function ReadOrderItems(es: seq<Element>, cd: Codecs, ownerID: int, bReadID: bool): (r: Result<seq<Orders.OrderItem>>)
    ensures r.Ok? ==> |r.value| == |es| && forall i :: 0 <= i < |es| ==> ReadOrderItem(es[i], cd, ownerID, bReadID) == Ok(r.value[i])
    ensures r.Ok? <==> forall i :: 0 <= i < |es| ==> ReadOrderItem(es[i], cd, ownerID, bReadID).Ok?
    ensures r.Err? ==> r == Err(NullPointer("unitPrice"))
  {
    MapResult(es, (i: nat, x: Element) => ReadOrderItem(x, cd, ownerID, bReadID))
  }

  /** When every item child is read, the loop yields the items in order. */
  lemma ReadOrderItemsAllRead(es: seq<Element>, cd: Codecs, ownerID: int, bReadID: bool, items: seq<Orders.OrderItem>)
    requires |items| == |es|
    requires forall j :: 0 <= j < |es| ==> ReadOrderItem(es[j], cd, ownerID, bReadID) == Ok(items[j])
    ensures ReadOrderItems(es, cd, ownerID, bReadID) == Ok(items)
  {
    var r := ReadOrderItems(es, cd, ownerID, bReadID);
    assert r.Ok?;
    assert r.value == items;
  }

  function OrderSlots(o: Orders.OrderValue, cd: Codecs): (ss: seq<Slot>)
    ensures SlotNames(ss) == ORDER_NAMES && WellNamed(ss)
  {
    [TextSlot("ordernumber", o.orderNumber), TextSlot("issuedate", Formatted(cd.date, o.issueDate)),
     TextSlot("deliverystartdate", Formatted(cd.date, o.deliveryStartDate)),
     TextSlot("deliveryenddate", Formatted(cd.date, o.deliveryEndDate)),
     TextSlot("incoterm", Formatted(cd.incoterm, o.incoterm))]
  }

  /**
   * writeOrder: id and deleted flag, the non-null header fields, one
   * orderitem child per item, then one attachment child per attachment the
   * manager resolves.
   */
  function WriteOrder(o: Orders.OrderValue, cd: Codecs, resolve: string -> Option<Attachments.ProcAttachment>)
    : (e: Element)
    ensures e.name == ELEMENT_ORDER && e.attrs == DeletableAttrs(o.id, o.deleted)
    ensures AllChildren(e.children, "orderitem") == OrderItemElements(o.orderItems, cd)
    ensures AllChildren(e.children, "attachment") == AttachmentElements(o.attachments, resolve, cd)
  {
    var head := SlotChildren(OrderSlots(o, cd));
    var items := OrderItemElements(o.orderItems, cd);
    var atts := AttachmentElements(o.attachments, resolve, cd);
    SlotChildrenOthers(OrderSlots(o, cd), "orderitem");
    SlotChildrenOthers(OrderSlots(o, cd), "attachment");
    AllChildrenAppend(head, items + atts, "orderitem");
    AllChildrenAppend(head, items + atts, "attachment");
    AllChildrenAppend(items, atts, "orderitem");
    AllChildrenAppend(items, atts, "attachment");
    AllChildrenOfUniform(items, "orderitem");
    AllChildrenOfOthers(items, "attachment");
    AllChildrenOfUniform(atts, "attachment");
    AllChildrenOfOthers(atts, "orderitem");
    Element(ELEMENT_ORDER, DeletableAttrs(o.id, o.deleted), head + (items + atts), None)
  }

  /**
   * readOrder: a fresh order fed the header fields, the items of the
   * orderitem children (their owner being this order) and the links of the
   * attachment children; empty lists are stored as null.
   */
  function ReadOrder(e: Element, cd: Codecs, newIDs: nat -> string, now: Attachments.DateTime,
                     handle: Attachments.Attachment -> Attachments.Attachment, bReadID: bool): (r: Result<Orders.OrderValue>)
    ensures r.Ok? ==> r.value.id == ReadID(e, bReadID) && r.value.deleted == ReadDeleted(e)
    ensures r.Ok? ==> FitsIn(r.value.orderNumber, Orders.LENGTH_ORDER_NUMBER)
    ensures r.Ok? && r.value.orderItems.Some? ==>
              |r.value.orderItems.value| > 0
              && forall i :: 0 <= i < |r.value.orderItems.value| ==>
                   Orders.ItemClamped(r.value.orderItems.value[i]) && r.value.orderItems.value[i].ownerID == r.value.id
    ensures r.Ok? && r.value.attachments.Some? ==> |r.value.attachments.value| > 0
    ensures r.Ok? <==> ReadOrderItems(AllChildren(e.children, "orderitem"), cd, ReadID(e, bReadID), bReadID).Ok?
                       && ReadLinks(AllChildren(e.children, "attachment"), cd, newIDs, now, handle).Ok?
  {
    var id := ReadID(e, bReadID);
    match ReadOrderItems(AllChildren(e.children, "orderitem"), cd, id, bReadID)
    case Err(err) => Err(err)
    case Ok(items) =>
      match ReadLinks(AllChildren(e.children, "attachment"), cd, newIDs, now, handle)
      case Err(err) => Err(err)
      case Ok(links) =>
        var cs := e.children;
        Ok(Orders.OrderValue(id, ReadDeleted(e), ReadText(cs, "ordernumber", Orders.LENGTH_ORDER_NUMBER), NonEmpty(items),
                             Parsed(cd.date, ChildText(cs, "issuedate")), Parsed(cd.date, ChildText(cs, "deliverystartdate")),
                             Parsed(cd.date, ChildText(cs, "deliveryenddate")), Parsed(cd.incoterm, ChildText(cs, "incoterm")),
                             NonEmpty(links)))
  }

  /** When the items and the attachments are read, the order is the header fields with both lists. */
  lemma ReadOrderOfLists(e: Element, cd: Codecs, newIDs: nat -> string, now: Attachments.DateTime,
                         handle: Attachments.Attachment -> Attachments.Attachment, bReadID: bool,
                         items: seq<Orders.OrderItem>, links: seq<LinkedAttachment>)
    requires ReadOrderItems(AllChildren(e.children, "orderitem"), cd, ReadID(e, bReadID), bReadID) == Ok(items)
    requires ReadLinks(AllChildren(e.children, "attachment"), cd, newIDs, now, handle) == Ok(links)
    ensures ReadOrder(e, cd, newIDs, now, handle, bReadID)
            == Ok(Orders.OrderValue(ReadID(e, bReadID), ReadDeleted(e),
                                    ReadText(e.children, "ordernumber", Orders.LENGTH_ORDER_NUMBER), NonEmpty(items),
                                    Parsed(cd.date, ChildText(e.children, "issuedate")),
                                    Parsed(cd.date, ChildText(e.children, "deliverystartdate")),
                                    Parsed(cd.date, ChildText(e.children, "deliveryenddate")),
                                    Parsed(cd.incoterm, ChildText(e.children, "incoterm")), NonEmpty(links)))
  {
  }

  /** readOrder fails with the first error of its item loop. */
  lemma ReadOrderItemsFailed(e: Element, cd: Codecs, newIDs: nat -> string, now: Attachments.DateTime,
                             handle: Attachments.Attachment -> Attachments.Attachment, bReadID: bool,
                             items: Result<seq<Orders.OrderItem>>)
    requires items == ReadOrderItems(AllChildren(e.children, "orderitem"), cd, ReadID(e, bReadID), bReadID) && items.Err?
    ensures ReadOrder(e, cd, newIDs, now, handle, bReadID) == Err(items.error)
  {
  }

  /** With its items read, readOrder fails with the first error of its attachment loop. */
  lemma ReadOrderLinksFailed(e: Element, cd: Codecs, newIDs: nat -> string, now: Attachments.DateTime,
                             handle: Attachments.Attachment -> Attachments.Attachment, bReadID: bool,
                             items: seq<Orders.OrderItem>, links: Result<seq<LinkedAttachment>>)
    requires ReadOrderItems(AllChildren(e.children, "orderitem"), cd, ReadID(e, bReadID), bReadID) == Ok(items)
    requires links == ReadLinks(AllChildren(e.children, "attachment"), cd, newIDs, now, handle) && links.Err?
    ensures ReadOrder(e, cd, newIDs, now, handle, bReadID) == Err(links.error)
  {
  }

  /** What an order must hold for its written form to read back as itself. */
  predicate OrderWritable(o: Orders.OrderValue)
  {
    IsInt32(o.id) && FitsIn(o.orderNumber, Orders.LENGTH_ORDER_NUMBER)
    && (o.orderItems.Some? ==>
          |o.orderItems.value| > 0 && forall it :: it in o.orderItems.value ==> ItemWritable(it, o.id))
  }

  lemma OrderNamesDistinct()
    ensures DistinctNames(ORDER_NAMES)
    ensures "orderitem" !in ORDER_NAMES && "attachment" !in ORDER_NAMES
  {
  }

  /** The items written by writeOrder read back as the order's items. */
  lemma ReadOrderItemsOfWritten(items: Option<seq<Orders.OrderItem>>, cd: Codecs, ownerID: int)
    requires RoundTrips(cd.commodityScheme) && PriceRoundTrips(cd.price)
    requires items.Some? ==> |items.value| > 0 && forall it :: it in items.value ==> ItemWritable(it, ownerID)
    ensures ReadOrderItems(OrderItemElements(items, cd), cd, ownerID, true).Ok?
    ensures NonEmpty(ReadOrderItems(OrderItemElements(items, cd), cd, ownerID, true).value) == items
  {
    var es := OrderItemElements(items, cd);
    if items.Some? {
      var its := items.value;
      forall i | 0 <= i < |es|
        ensures ReadOrderItem(es[i], cd, ownerID, true) == Ok(its[i])
      {
        assert its[i] in its;
        ReadOrderItemOfWritten(its[i], cd);
      }
      assert ReadOrderItems(es, cd, ownerID, true).value == its;
    }
  }

  /** Children all called x followed by children all called y carry no name from `names` that lacks both. */
  lemma TwoNamesOutside(xs: seq<Element>, ys: seq<Element>, x: string, y: string, names: seq<string>)
    requires forall i :: 0 <= i < |xs| ==> xs[i].name == x
    requires forall i :: 0 <= i < |ys| ==> ys[i].name == y
    requires x !in names && y !in names
    ensures forall c :: c in xs + ys ==> c.name !in names
  {
    forall c: Element | c in xs + ys
      ensures c.name == x || c.name == y
    {
      if c in xs {
        var i :| 0 <= i < |xs| && xs[i] == c;
      } else {
        var i :| 0 <= i < |ys| && ys[i] == c;
      }
    }
  }

  /** No item or attachment child of a written order carries a header name. */
  lemma OrderBodyNames(o: Orders.OrderValue, cd: Codecs, resolve: string -> Option<Attachments.ProcAttachment>)
    ensures forall c :: c in OrderItemElements(o.orderItems, cd) + AttachmentElements(o.attachments, resolve, cd)
                        ==> c.name !in ORDER_NAMES
  {
    var items := OrderItemElements(o.orderItems, cd);
    var atts := AttachmentElements(o.attachments, resolve, cd);
    assert "orderitem" !in ORDER_NAMES && "attachment" !in ORDER_NAMES;
    TwoNamesOutside(items, atts, "orderitem", "attachment", ORDER_NAMES);
  }

  /** The header children of a written order read back as the order's header fields. */
  lemma ReadOrderHeaderOfWritten(o: Orders.OrderValue, cd: Codecs, rest: seq<Element>)
    requires RoundTrips(cd.date) && RoundTrips(cd.incoterm) && FitsIn(o.orderNumber, Orders.LENGTH_ORDER_NUMBER)
    requires forall c :: c in rest ==> c.name !in ORDER_NAMES
    ensures ReadText(SlotChildren(OrderSlots(o, cd)) + rest, "ordernumber", Orders.LENGTH_ORDER_NUMBER) == o.orderNumber
    ensures Parsed(cd.date, ChildText(SlotChildren(OrderSlots(o, cd)) + rest, "issuedate")) == o.issueDate
    ensures Parsed(cd.date, ChildText(SlotChildren(OrderSlots(o, cd)) + rest, "deliverystartdate")) == o.deliveryStartDate
    ensures Parsed(cd.date, ChildText(SlotChildren(OrderSlots(o, cd)) + rest, "deliveryenddate")) == o.deliveryEndDate
    ensures Parsed(cd.incoterm, ChildText(SlotChildren(OrderSlots(o, cd)) + rest, "incoterm")) == o.incoterm
  {
    var ss := OrderSlots(o, cd);
    OrderNamesDistinct();
    TextSlotLookup(ss, 0, rest, o.orderNumber);
    assert Parsed(cd.date, ChildText(SlotChildren(ss) + rest, "issuedate")) == o.issueDate by {
      TextSlotLookup(ss, 1, rest, Formatted(cd.date, o.issueDate));
      ParsedFormatted(cd.date, o.issueDate);
    }
    assert Parsed(cd.date, ChildText(SlotChildren(ss) + rest, "deliverystartdate")) == o.deliveryStartDate by {
      TextSlotLookup(ss, 2, rest, Formatted(cd.date, o.deliveryStartDate));
      ParsedFormatted(cd.date, o.deliveryStartDate);
    }
    assert Parsed(cd.date, ChildText(SlotChildren(ss) + rest, "deliveryenddate")) == o.deliveryEndDate by {
      TextSlotLookup(ss, 3, rest, Formatted(cd.date, o.deliveryEndDate));
      ParsedFormatted(cd.date, o.deliveryEndDate);
    }
    assert Parsed(cd.incoterm, ChildText(SlotChildren(ss) + rest, "incoterm")) == o.incoterm by {
      TextSlotLookup(ss, 4, rest, Formatted(cd.incoterm, o.incoterm));
      ParsedFormatted(cd.incoterm, o.incoterm);
    }
  }

  /**
   * readOrder(writeOrder(o), true) is o, except that its attachments are
   * re-linked to what the read handler made of the written attachments.
   */
  lemma ReadOrderOfWritten(o: Orders.OrderValue, cd: Codecs, resolve: string -> Option<Attachments.ProcAttachment>,
                           newIDs: nat -> string, now: Attachments.DateTime,
                           handle: Attachments.Attachment -> Attachments.Attachment)
    requires Faithful(cd) && OrderWritable(o) && forall i: nat :: |newIDs(i)| > 0
    ensures ReadOrder(WriteOrder(o, cd, resolve), cd, newIDs, now, handle, true)
            == Ok(o.(attachments := ExpectedLinks(o.attachments, resolve, newIDs, now, handle)))
  {
    var e := WriteOrder(o, cd, resolve);
    var items := OrderItemElements(o.orderItems, cd);
    var atts := AttachmentElements(o.attachments, resolve, cd);
    var rest := items + atts;
    assert e.children == SlotChildren(OrderSlots(o, cd)) + rest;
    assert ReadID(e, true) == o.id && ReadDeleted(e) == o.deleted by {
      ReadDeletableOfWritten(e, o.id, o.deleted);
    }
    var ri := ReadOrderItems(AllChildren(e.children, "orderitem"), cd, o.id, true);
    assert ri.Ok? && NonEmpty(ri.value) == o.orderItems by {
      ReadOrderItemsOfWritten(o.orderItems, cd, o.id);
    }
    var rl := ReadLinks(AllChildren(e.children, "attachment"), cd, newIDs, now, handle);
    assert rl.Ok? && NonEmpty(rl.value) == ExpectedLinks(o.attachments, resolve, newIDs, now, handle) by {
      ReadLinksOfWritten(o.attachments, resolve, cd, newIDs, now, handle);
    }
    assert forall c :: c in rest ==> c.name !in ORDER_NAMES by {
      OrderBodyNames(o, cd, resolve);
    }
    ReadOrderHeaderOfWritten(o, cd, rest);
  }

  /** Without attachments an order reads back exactly as it was written. */
  lemma ReadOrderOfWrittenNoAttachments(o: Orders.OrderValue, cd: Codecs,
                                        resolve: string -> Option<Attachments.ProcAttachment>,
                                        newIDs: nat -> string, now: Attachments.DateTime,
                                        handle: Attachments.Attachment -> Attachments.Attachment)
    requires Faithful(cd) && OrderWritable(o) && o.attachments.None? && forall i: nat :: |newIDs(i)| > 0
    ensures ReadOrder(WriteOrder(o, cd, resolve), cd, newIDs, now, handle, true) == Ok(o)
  {
    ReadOrderOfWritten(o, cd, resolve, newIDs, now, handle);
  }

  // ---------------------------------------------------------------------
  // writeInvoice / readInvoice
  // ---------------------------------------------------------------------

  const INVOICE_NAMES: seq<string> := ["issuedate", "invoicenumber", "invoicenote"]
  const INVOICE_LINE_NAMES: seq<string> :=
    ["orderitemid", "lineid", "commodityscheme", "commodityid", "description", "quantity", "unitprice", "taxcategory", "remark"]

  function InvoiceLineSlots(l: Invoices.InvoiceLine, cd: Codecs): (ss: seq<Slot>)
    ensures SlotNames(ss) == INVOICE_LINE_NAMES
    ensures PriceRoundTrips(cd.price) ==> WellNamed(ss)
  {
    [TextSlot("orderitemid", l.orderItemID), TextSlot("lineid", l.lineID),
     TextSlot("commodityscheme", Formatted(cd.commodityScheme, l.commodityScheme)),
     TextSlot("commodityid", l.commodityID), TextSlot("description", l.description),
     TextSlot("quantity", Some(IntToString(l.quantity))), PriceSlot(l.unitPrice, cd),
     TextSlot("taxcategory", Formatted(cd.taxCategory, l.taxCategory)), TextSlot("remark", l.remark)]
  }

  /** An invoiceline child: the id, then the non-null fields and the quantity, which is always written. */
  function InvoiceLineElement(l: Invoices.InvoiceLine, cd: Codecs): (e: Element)
    ensures e.name == "invoiceline"
  {
    Element("invoiceline", ObjectAttrs(l.id), SlotChildren(InvoiceLineSlots(l, cd)), None)
  }

  /**
   * An invoice line read for the invoice with id ownerID: a missing quantity
   * is -1, and a missing or unreadable unit price fails setUnitPrice.
   */
  function ReadInvoiceLine(e: Element, cd: Codecs, ownerID: int, bReadID: bool): (r: Result<Invoices.InvoiceLine>)
    ensures r.Ok? <==> ReadUnitPrice(e.children, cd).Some?
    ensures r.Err? ==> r == Err(NullPointer("unitPrice"))
    ensures r.Ok? ==> Invoices.LineClamped(r.value) && r.value.ownerID == ownerID && r.value.id == ReadID(e, bReadID)
                      && r.value.unitPrice == ReadUnitPrice(e.children, cd)
    ensures r.Ok? && ChildText(e.children, "quantity").None? ==> r.value.quantity == -1
  {
    var cs := e.children;
    var price := ReadUnitPrice(cs, cd);
    if price.None? then Err(NullPointer("unitPrice"))
    else
      Ok(Invoices.InvoiceLine(ReadID(e, bReadID), ownerID,
                              ReadText(cs, "orderitemid", Invoices.LENGTH_ORDERITEM),
                              ReadText(cs, "lineid", Invoices.LENGTH_LINEID),
                              Parsed(cd.commodityScheme, ChildText(cs, "commodityscheme")),
                              ReadText(cs, "commodityid", Invoices.LENGTH_COMMODITY_ID),
                              ReadText(cs, "description", Invoices.LENGTH_DESCRIPTION),
                              ParseInt(ChildText(cs, "quantity"), -1),
                              price,
                              Parsed(cd.taxCategory, ChildText(cs, "taxcategory")),
                              ReadText(cs, "remark", Invoices.LENGTH_REMARK)))
  }

  /** What an invoice line must hold to read back as itself. */
  predicate LineWritable(l: Invoices.InvoiceLine, ownerID: int)
  {
    Invoices.LineClamped(l) && IsInt32(l.id) && IsInt32(l.quantity) && l.unitPrice.Some? && l.ownerID == ownerID
  }

  lemma InvoiceLineNamesDistinct()
    ensures DistinctNames(INVOICE_LINE_NAMES)
  {
  }

  /** The text fields of a written invoice line read back as themselves. */
  lemma ReadInvoiceLineTextsOfWritten(l: Invoices.InvoiceLine, cd: Codecs)
    requires PriceRoundTrips(cd.price) && Invoices.LineClamped(l)
    ensures ReadText(InvoiceLineElement(l, cd).children, "orderitemid", Invoices.LENGTH_ORDERITEM) == l.orderItemID
    ensures ReadText(InvoiceLineElement(l, cd).children, "lineid", Invoices.LENGTH_LINEID) == l.lineID
    ensures ReadText(InvoiceLineElement(l, cd).children, "commodityid", Invoices.LENGTH_COMMODITY_ID) == l.commodityID
    ensures ReadText(InvoiceLineElement(l, cd).children, "description", Invoices.LENGTH_DESCRIPTION) == l.description
    ensures ReadText(InvoiceLineElement(l, cd).children, "remark", Invoices.LENGTH_REMARK) == l.remark
  {
    var ss := InvoiceLineSlots(l, cd);
    var cs := InvoiceLineElement(l, cd).children;
    assert cs == SlotChildren(ss) + [];
    InvoiceLineNamesDistinct();
    assert ChildText(cs, "orderitemid") == l.orderItemID by { TextSlotFind(ss, "orderitemid", l.orderItemID, []); }
    assert ChildText(cs, "lineid") == l.lineID by { TextSlotFind(ss, "lineid", l.lineID, []); }
    assert ChildText(cs, "commodityid") == l.commodityID by { TextSlotFind(ss, "commodityid", l.commodityID, []); }
    assert ChildText(cs, "description") == l.description by { TextSlotFind(ss, "description", l.description, []); }
    assert ChildText(cs, "remark") == l.remark by { TextSlotFind(ss, "remark", l.remark, []); }
  }

  /** A written invoice line reads back as itself. */
  lemma ReadInvoiceLineOfWritten(l: Invoices.InvoiceLine, cd: Codecs)
    requires RoundTrips(cd.commodityScheme) && RoundTrips(cd.taxCategory) && PriceRoundTrips(cd.price)
    requires LineWritable(l, l.ownerID)
    ensures ReadInvoiceLine(InvoiceLineElement(l, cd), cd, l.ownerID, true) == Ok(l)
  {
    var e := InvoiceLineElement(l, cd);
    var ss := InvoiceLineSlots(l, cd);
    var cs := e.children;
    InvoiceLineNamesDistinct();
    assert cs == SlotChildren(ss) + [];
    ParseIntOfIntToString(l.id, ILLEGAL_UINT);
    assert Attribute(e, "id") == Some(IntToString(l.id));
    ReadInvoiceLineTextsOfWritten(l, cd);
    assert Parsed(cd.commodityScheme, ChildText(cs, "commodityscheme")) == l.commodityScheme by {
      TextSlotFind(ss, "commodityscheme", Formatted(cd.commodityScheme, l.commodityScheme), []);
      ParsedFormatted(cd.commodityScheme, l.commodityScheme);
    }
    assert ParseInt(ChildText(cs, "quantity"), -1) == l.quantity by {
      TextSlotFind(ss, "quantity", Some(IntToString(l.quantity)), []);
      ParseIntOfIntToString(l.quantity, -1);
    }
    assert ReadUnitPrice(cs, cd) == l.unitPrice by { SlotFind(ss, PriceSlot(l.unitPrice, cd), []); }
    assert Parsed(cd.taxCategory, ChildText(cs, "taxcategory")) == l.taxCategory by {
      TextSlotFind(ss, "taxcategory", Formatted(cd.taxCategory, l.taxCategory), []);
      ParsedFormatted(cd.taxCategory, l.taxCategory);
    }
  }

  function InvoiceLineElements(lines: Option<seq<Invoices.InvoiceLine>>, cd: Codecs): (es: seq<Element>)
    ensures lines.None? ==> es == []
    ensures lines.Some? ==> |es| == |lines.value|
                            && forall i :: 0 <= i < |es| ==> es[i] == InvoiceLineElement(lines.value[i], cd)
    ensures forall i :: 0 <= i < |es| ==> es[i].name == "invoiceline"
  {
    if lines.None? then [] else seq(|lines.value|, i requires 0 <= i < |lines.value| => InvoiceLineElement(lines.value[i], cd))
  }

  /** The lines of all invoiceline children, in document order; the first unreadable one fails the read. */
  function ReadInvoiceLines(es: seq<Element>, cd: Codecs, ownerID: int, bReadID: bool)
    : (r: Result<seq<Invoices.InvoiceLine>>)
    ensures r.Ok? ==> |r.value| == |es| && forall i :: 0 <= i < |es| ==> ReadInvoiceLine(es[i], cd, ownerID, bReadID) == Ok(r.value[i])
    ensures r.Ok? <==> forall i :: 0 <= i < |es| ==> ReadInvoiceLine(es[i], cd, ownerID, bReadID).Ok?
    ensures r.Err? ==> r == Err(NullPointer("unitPrice"))
  {
    MapResult(es, (i: nat, x: Element) => ReadInvoiceLine(x, cd, ownerID, bReadID))
  }

  /** When every line child is read, the loop yields the lines in order. */
  lemma ReadInvoiceLinesAllRead(es: seq<Element>, cd: Codecs, ownerID: int, bReadID: bool,
                                lines: seq<Invoices.InvoiceLine>)
    requires |lines| == |es|
    requires forall j :: 0 <= j < |es| ==> ReadInvoiceLine(es[j], cd, ownerID, bReadID) == Ok(lines[j])
    ensures ReadInvoiceLines(es, cd, ownerID, bReadID) == Ok(lines)
  {
    var r := ReadInvoiceLines(es, cd, ownerID, bReadID);
    assert r.Ok?;
    assert r.value == lines;
  }

  function InvoiceSlots(inv: Invoices.InvoiceValue, cd: Codecs): (ss: seq<Slot>)
    ensures SlotNames(ss) == INVOICE_NAMES && WellNamed(ss)
  {
    [TextSlot("issuedate", Formatted(cd.date, inv.issueDate)), TextSlot("invoicenumber", inv.invoiceNumber),
     TextSlot("invoicenote", inv.invoiceNote)]
  }

  /**
   * writeInvoice: id and deleted flag, the non-null header fields, one
   * invoiceline child per line, then one attachment child per attachment the
   * manager resolves.
   */
  function WriteInvoice(inv: Invoices.InvoiceValue, cd: Codecs, resolve: string -> Option<Attachments.ProcAttachment>)
    : (e: Element)
    ensures e.name == ELEMENT_INVOICE && e.attrs == DeletableAttrs(inv.id, inv.deleted)
    ensures AllChildren(e.children, "invoiceline") == InvoiceLineElements(inv.invoiceLines, cd)
    ensures AllChildren(e.children, "attachment") == AttachmentElements(inv.attachments, resolve, cd)
  {
    var head := SlotChildren(InvoiceSlots(inv, cd));
    var lines := InvoiceLineElements(inv.invoiceLines, cd);
    var atts := AttachmentElements(inv.attachments, resolve, cd);
    SlotChildrenOthers(InvoiceSlots(inv, cd), "invoiceline");
    SlotChildrenOthers(InvoiceSlots(inv, cd), "attachment");
    AllChildrenAppend(head, lines + atts, "invoiceline");
    AllChildrenAppend(head, lines + atts, "attachment");
    AllChildrenAppend(lines, atts, "invoiceline");
    AllChildrenAppend(lines, atts, "attachment");
    AllChildrenOfUniform(lines, "invoiceline");
    AllChildrenOfOthers(lines, "attachment");
    AllChildrenOfUniform(atts, "attachment");
    AllChildrenOfOthers(atts, "invoiceline");
    Element(ELEMENT_INVOICE, DeletableAttrs(inv.id, inv.deleted), head + (lines + atts), None)
  }

  /**
   * readInvoice: a fresh invoice fed the header fields, the lines of the
   * invoiceline children (their owner being this invoice) and the links of
   * the attachment children; empty lists are stored as null.
   */
  function ReadInvoice(e: Element, cd: Codecs, newIDs: nat -> string, now: Attachments.DateTime,
                       handle: Attachments.Attachment -> Attachments.Attachment, bReadID: bool)
    : (r: Result<Invoices.InvoiceValue>)
    ensures r.Ok? ==> r.value.id == ReadID(e, bReadID) && r.value.deleted == ReadDeleted(e)
    ensures r.Ok? ==> FitsIn(r.value.invoiceNumber, Invoices.LENGTH_INVOICENUMBER)
                      && FitsIn(r.value.invoiceNote, Invoices.LENGTH_INVOICENOTE)
    ensures r.Ok? && r.value.invoiceLines.Some? ==>
              |r.value.invoiceLines.value| > 0
              && forall i :: 0 <= i < |r.value.invoiceLines.value| ==>
                   Invoices.LineClamped(r.value.invoiceLines.value[i]) && r.value.invoiceLines.value[i].ownerID == r.value.id
    ensures r.Ok? && r.value.attachments.Some? ==> |r.value.attachments.value| > 0
    ensures r.Ok? <==> ReadInvoiceLines(AllChildren(e.children, "invoiceline"), cd, ReadID(e, bReadID), bReadID).Ok?
                       && ReadLinks(AllChildren(e.children, "attachment"), cd, newIDs, now, handle).Ok?
  {
    var id := ReadID(e, bReadID);
    match ReadInvoiceLines(AllChildren(e.children, "invoiceline"), cd, id, bReadID)
    case Err(err) => Err(err)
    case Ok(lines) =>
      match ReadLinks(AllChildren(e.children, "attachment"), cd, newIDs, now, handle)
      case Err(err) => Err(err)
      case Ok(links) =>
        var cs := e.children;
        Ok(Invoices.InvoiceValue(id, ReadDeleted(e), Parsed(cd.date, ChildText(cs, "issuedate")),
                                 ReadText(cs, "invoicenumber", Invoices.LENGTH_INVOICENUMBER),
                                 ReadText(cs, "invoicenote", Invoices.LENGTH_INVOICENOTE),
                                 NonEmpty(lines), NonEmpty(links)))
  }

  /** When the lines and the attachments are read, the invoice is the header fields with both lists. */
  lemma ReadInvoiceOfLists(e: Element, cd: Codecs, newIDs: nat -> string, now: Attachments.DateTime,
                           handle: Attachments.Attachment -> Attachments.Attachment, bReadID: bool,
                           lines: seq<Invoices.InvoiceLine>, links: seq<LinkedAttachment>)
    requires ReadInvoiceLines(AllChildren(e.children, "invoiceline"), cd, ReadID(e, bReadID), bReadID) == Ok(lines)
    requires ReadLinks(AllChildren(e.children, "attachment"), cd, newIDs, now, handle) == Ok(links)
    ensures ReadInvoice(e, cd, newIDs, now, handle, bReadID)
            == Ok(Invoices.InvoiceValue(ReadID(e, bReadID), ReadDeleted(e), Parsed(cd.date, ChildText(e.children, "issuedate")),
                                        ReadText(e.children, "invoicenumber", Invoices.LENGTH_INVOICENUMBER),
                                        ReadText(e.children, "invoicenote", Invoices.LENGTH_INVOICENOTE),
                                        NonEmpty(lines), NonEmpty(links)))
  {
  }

  /** readInvoice fails with the first error of its line loop. */
  lemma ReadInvoiceLinesFailed(e: Element, cd: Codecs, newIDs: nat -> string, now: Attachments.DateTime,
                               handle: Attachments.Attachment -> Attachments.Attachment, bReadID: bool,
                               lines: Result<seq<Invoices.InvoiceLine>>)
    requires lines == ReadInvoiceLines(AllChildren(e.children, "invoiceline"), cd, ReadID(e, bReadID), bReadID)
             && lines.Err?
    ensures ReadInvoice(e, cd, newIDs, now, handle, bReadID) == Err(lines.error)
  {
  }

  /** With its lines read, readInvoice fails with the first error of its attachment loop. */
  lemma ReadInvoiceLinksFailed(e: Element, cd: Codecs, newIDs: nat -> string, now: Attachments.DateTime,
                               handle: Attachments.Attachment -> Attachments.Attachment, bReadID: bool,
                               lines: seq<Invoices.InvoiceLine>, links: Result<seq<LinkedAttachment>>)
    requires ReadInvoiceLines(AllChildren(e.children, "invoiceline"), cd, ReadID(e, bReadID), bReadID) == Ok(lines)
    requires links == ReadLinks(AllChildren(e.children, "attachment"), cd, newIDs, now, handle) && links.Err?
    ensures ReadInvoice(e, cd, newIDs, now, handle, bReadID) == Err(links.error)
  {
  }

  /** What an invoice must hold for its written form to read back as itself. */
  predicate InvoiceWritable(inv: Invoices.InvoiceValue)
  {
    IsInt32(inv.id) && FitsIn(inv.invoiceNumber, Invoices.LENGTH_INVOICENUMBER)
    && FitsIn(inv.invoiceNote, Invoices.LENGTH_INVOICENOTE)
    && (inv.invoiceLines.Some? ==>
          |inv.invoiceLines.value| > 0 && forall l :: l in inv.invoiceLines.value ==> LineWritable(l, inv.id))
  }

  /** The lines written by writeInvoice read back as the invoice's lines. */
  lemma ReadInvoiceLinesOfWritten(lines: Option<seq<Invoices.InvoiceLine>>, cd: Codecs, ownerID: int)
    requires RoundTrips(cd.commodityScheme) && RoundTrips(cd.taxCategory) && PriceRoundTrips(cd.price)
    requires lines.Some? ==> |lines.value| > 0 && forall l :: l in lines.value ==> LineWritable(l, ownerID)
    ensures ReadInvoiceLines(InvoiceLineElements(lines, cd), cd, ownerID, true).Ok?
    ensures NonEmpty(ReadInvoiceLines(InvoiceLineElements(lines, cd), cd, ownerID, true).value) == lines
  {
    var es := InvoiceLineElements(lines, cd);
    if lines.Some? {
      var ls := lines.value;
      forall i | 0 <= i < |es|
        ensures ReadInvoiceLine(es[i], cd, ownerID, true) == Ok(ls[i])
      {
        assert ls[i] in ls;
        ReadInvoiceLineOfWritten(ls[i], cd);
      }
      assert ReadInvoiceLines(es, cd, ownerID, true).value == ls;
    }
  }

  lemma NotInvoiceNames()
    ensures "invoiceline" !in INVOICE_NAMES && "attachment" !in INVOICE_NAMES
  {
  }

  /** No line or attachment child of a written invoice carries a header name. */
  lemma InvoiceBodyNames(inv: Invoices.InvoiceValue, cd: Codecs, resolve: string -> Option<Attachments.ProcAttachment>)
    ensures forall c :: c in InvoiceLineElements(inv.invoiceLines, cd) + AttachmentElements(inv.attachments, resolve, cd)
                        ==> c.name !in INVOICE_NAMES
  {
    var lines := InvoiceLineElements(inv.invoiceLines, cd);
    var atts := AttachmentElements(inv.attachments, resolve, cd);
    NotInvoiceNames();
    TwoNamesOutside(lines, atts, "invoiceline", "attachment", INVOICE_NAMES);
  }

  /** The header children of a written invoice read back as the invoice's header fields. */
  lemma ReadInvoiceHeaderOfWritten(inv: Invoices.InvoiceValue, cd: Codecs, rest: seq<Element>)
    requires RoundTrips(cd.date) && InvoiceWritable(inv)
    requires forall c :: c in rest ==> c.name !in INVOICE_NAMES
    ensures Parsed(cd.date, ChildText(SlotChildren(InvoiceSlots(inv, cd)) + rest, "issuedate")) == inv.issueDate
    ensures ReadText(SlotChildren(InvoiceSlots(inv, cd)) + rest, "invoicenumber", Invoices.LENGTH_INVOICENUMBER)
            == inv.invoiceNumber
    ensures ReadText(SlotChildren(InvoiceSlots(inv, cd)) + rest, "invoicenote", Invoices.LENGTH_INVOICENOTE)
            == inv.invoiceNote
  {
    var ss := InvoiceSlots(inv, cd);
    assert DistinctNames(INVOICE_NAMES);
    assert Parsed(cd.date, ChildText(SlotChildren(ss) + rest, "issuedate")) == inv.issueDate by {
      TextSlotLookup(ss, 0, rest, Formatted(cd.date, inv.issueDate));
      ParsedFormatted(cd.date, inv.issueDate);
    }
    TextSlotLookup(ss, 1, rest, inv.invoiceNumber);
    TextSlotLookup(ss, 2, rest, inv.invoiceNote);
  }

  /**
   * readInvoice(writeInvoice(inv), true) is inv, except that its attachments
   * are re-linked to what the read handler made of the written attachments.
   */
  lemma ReadInvoiceOfWritten(inv: Invoices.InvoiceValue, cd: Codecs, resolve: string -> Option<Attachments.ProcAttachment>,
                             newIDs: nat -> string, now: Attachments.DateTime,
                             handle: Attachments.Attachment -> Attachments.Attachment)
    requires Faithful(cd) && InvoiceWritable(inv) && forall i: nat :: |newIDs(i)| > 0
    ensures ReadInvoice(WriteInvoice(inv, cd, resolve), cd, newIDs, now, handle, true)
            == Ok(inv.(attachments := ExpectedLinks(inv.attachments, resolve, newIDs, now, handle)))
  {
    var e := WriteInvoice(inv, cd, resolve);
    var lines := InvoiceLineElements(inv.invoiceLines, cd);
    var atts := AttachmentElements(inv.attachments, resolve, cd);
    var rest := lines + atts;
    assert e.children == SlotChildren(InvoiceSlots(inv, cd)) + rest;
    assert ReadID(e, true) == inv.id && ReadDeleted(e) == inv.deleted by {
      ReadDeletableOfWritten(e, inv.id, inv.deleted);
    }
    var rl := ReadInvoiceLines(AllChildren(e.children, "invoiceline"), cd, inv.id, true);
    assert rl.Ok? && NonEmpty(rl.value) == inv.invoiceLines by {
      ReadInvoiceLinesOfWritten(inv.invoiceLines, cd, inv.id);
    }
    var ra := ReadLinks(AllChildren(e.children, "attachment"), cd, newIDs, now, handle);
    assert ra.Ok? && NonEmpty(ra.value) == ExpectedLinks(inv.attachments, resolve, newIDs, now, handle) by {
      ReadLinksOfWritten(inv.attachments, resolve, cd, newIDs, now, handle);
    }
    assert forall c :: c in rest ==> c.name !in INVOICE_NAMES by {
      InvoiceBodyNames(inv, cd, resolve);
    }
    ReadInvoiceHeaderOfWritten(inv, cd, rest);
  }

  /** Without attachments an invoice reads back exactly as it was written. */
  lemma ReadInvoiceOfWrittenNoAttachments(inv: Invoices.InvoiceValue, cd: Codecs,
                                          resolve: string -> Option<Attachments.ProcAttachment>,
                                          newIDs: nat -> string, now: Attachments.DateTime,
                                          handle: Attachments.Attachment -> Attachments.Attachment)
    requires Faithful(cd) && InvoiceWritable(inv) && inv.attachments.None? && forall i: nat :: |newIDs(i)| > 0
    ensures ReadInvoice(WriteInvoice(inv, cd, resolve), cd, newIDs, now, handle, true) == Ok(inv)
  {
    ReadInvoiceOfWritten(inv, cd, resolve, newIDs, now, handle);
  }
}
