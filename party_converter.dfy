/**
 * AbstractProcPartyMicroTypeConverter: the attribute form of a party. The
 * writer sets the id and the deleted flag, then one attribute per field that
 * has text (the ID scheme and the country: per non-null field); the reader
 * feeds every attribute, present or not, to the party's setters.
 *
 * The writer as written guards the IBAN attribute by the VATIN; the model's
 * writer guards it by the IBAN itself (WithPartyAttributes), and
 * WithPartyAttributesAsWritten keeps the original guard to show what it loses.
 */
module PartyConverter {
  import opened Common
  import opened Xml
  import IdSchemes
  import opened Parties

  const ATTR_ID := "id"
  const ATTR_DELETED := "deleted"
  const ATTR_ENTITYIDSCHEMEID := "entityidschemeid"
  const ATTR_ENTITYID := "entityid"
  const ATTR_ENDPOINTID := "endpointid"
  const ATTR_NAME := "name"
  const ATTR_STREET := "street"
  const ATTR_BUILDINGNUMBER := "buildingnumber"
  const ATTR_POSTBOX := "postbox"
  const ATTR_ZIPCODE := "zipcode"
  const ATTR_CITY := "city"
  const ATTR_COUNTRY := "country"
  const ATTR_REGISTRATIONNAME := "registrationname"
  const ATTR_COMPANYREGISTRATIONNUMBER := "companyregistrationnumber"
  const ATTR_VATIN := "vatin"
  const ATTR_BIC := "bic"
  const ATTR_IBAN := "iban"

  /** The attributes convertToMicroElementPartial sets, in the order it sets them. */
  const PARTY_ATTRS: seq<string> :=
    [ATTR_ID, ATTR_DELETED, ATTR_ENTITYIDSCHEMEID, ATTR_ENTITYID, ATTR_ENDPOINTID, ATTR_NAME, ATTR_STREET,
     ATTR_BUILDINGNUMBER, ATTR_POSTBOX, ATTR_ZIPCODE, ATTR_CITY, ATTR_COUNTRY, ATTR_REGISTRATIONNAME,
     ATTR_COMPANYREGISTRATIONNUMBER, ATTR_VATIN, ATTR_BIC, ATTR_IBAN]

  lemma PartyAttrsDistinct()
    ensures DistinctNames(PARTY_ATTRS)
  {
  }

  /** `if (StringHelper.hasText (s)) setAttribute (attr, s)`. */
  function TextWrite(attr: string, s: Option<string>): (w: AttrWrite)
    ensures w.attr == attr && (w.guard <==> HasText(s)) && w.value == s
  {
    AttrWrite(attr, HasText(s), s)
  }

  /** The writes before the IBAN: id and deleted always, the scheme and the country when non-null, texts when non-empty. */
  function LeadingWrites(v: PartyValue, locale: TextCodec<Locale>): (ws: seq<AttrWrite>)
    ensures AttrNames(ws) == PARTY_ATTRS[..16]
  {
    [AttrWrite(ATTR_ID, true, Some(IntToString(v.id))),
     AttrWrite(ATTR_DELETED, true, Some(BoolToString(v.deleted))),
     AttrWrite(ATTR_ENTITYIDSCHEMEID, v.entityIDScheme.Some?, SchemeID(v.entityIDScheme)),
     TextWrite(ATTR_ENTITYID, v.entityID), TextWrite(ATTR_ENDPOINTID, v.endpointID),
     TextWrite(ATTR_NAME, v.name), TextWrite(ATTR_STREET, v.street),
     TextWrite(ATTR_BUILDINGNUMBER, v.buildingNumber), TextWrite(ATTR_POSTBOX, v.postbox),
     TextWrite(ATTR_ZIPCODE, v.zipCode), TextWrite(ATTR_CITY, v.city),
     AttrWrite(ATTR_COUNTRY, v.country.Some?, Formatted(locale, v.country)),
     TextWrite(ATTR_REGISTRATIONNAME, v.registrationName),
     TextWrite(ATTR_COMPANYREGISTRATIONNUMBER, v.companyRegistrationNumber),
     TextWrite(ATTR_VATIN, v.vatin), TextWrite(ATTR_BIC, v.bic)]
  }

  /** The writes of convertToMicroElementPartial as written: the IBAN is set, even when null, exactly when the VATIN has text. */
  function PartyWritesAsWritten(v: PartyValue, locale: TextCodec<Locale>): (ws: seq<AttrWrite>)
    ensures AttrNames(ws) == PARTY_ATTRS
    ensures ws[16] == AttrWrite(ATTR_IBAN, HasText(v.vatin), v.iban)
  {
    LeadingWrites(v, locale) + [AttrWrite(ATTR_IBAN, HasText(v.vatin), v.iban)]
  }

  /** The writes of convertToMicroElementPartial, with the IBAN set when the IBAN has text. */
  function PartyWrites(v: PartyValue, locale: TextCodec<Locale>): (ws: seq<AttrWrite>)
    ensures AttrNames(ws) == PARTY_ATTRS
    ensures ws[16] == TextWrite(ATTR_IBAN, v.iban)
  {
    LeadingWrites(v, locale) + [TextWrite(ATTR_IBAN, v.iban)]
  }

  /** convertToMicroElementPartial as written, on a party value. */
  function WithPartyAttributesAsWritten(e: Element, v: PartyValue, locale: TextCodec<Locale>): (r: Element)
    ensures r.name == e.name && r.children == e.children && r.text == e.text
    ensures forall a :: a !in PARTY_ATTRS ==> Attribute(r, a) == Attribute(e, a)
  {
    PutAllKeepsOthers(e, PartyWritesAsWritten(v, locale));
    PutAll(e, PartyWritesAsWritten(v, locale))
  }

  /** convertToMicroElementPartial on a party value: the party's attributes, and no other attribute touched. */
  function WithPartyAttributes(e: Element, v: PartyValue, locale: TextCodec<Locale>): (r: Element)
    ensures r.name == e.name && r.children == e.children && r.text == e.text
    ensures forall a :: a !in PARTY_ATTRS ==> Attribute(r, a) == Attribute(e, a)
  {
    PutAllKeepsOthers(e, PartyWrites(v, locale));
    PutAll(e, PartyWrites(v, locale))
  }

  /** The first eight attributes convertToMicroElementPartial sets, from the id to the building number. */
  method WriteLeadingAttributes(party: ProcParty, e: Element, locale: TextCodec<Locale>)
    returns (r: Element, ghost done: seq<AttrWrite>)
    ensures done == [AttrWrite(ATTR_ID, true, Some(IntToString(party.id))),
                     AttrWrite(ATTR_DELETED, true, Some(BoolToString(party.deleted))),
                     AttrWrite(ATTR_ENTITYIDSCHEMEID, party.entityIDScheme.Some?, party.EntityIDSchemeID()),
                     TextWrite(ATTR_ENTITYID, party.entityID), TextWrite(ATTR_ENDPOINTID, party.endpointID),
                     TextWrite(ATTR_NAME, party.name), TextWrite(ATTR_STREET, party.street),
                     TextWrite(ATTR_BUILDINGNUMBER, party.buildingNumber)]
    ensures r == PutAll(e, done)
  {
    done := [];
    r := e;
    r := Write(r, AttrWrite(ATTR_ID, true, Some(IntToString(party.id))));
    PutAllSnoc(e, done, AttrWrite(ATTR_ID, true, Some(IntToString(party.id))));
    done := done + [AttrWrite(ATTR_ID, true, Some(IntToString(party.id)))];
    r := Write(r, AttrWrite(ATTR_DELETED, true, Some(BoolToString(party.deleted))));
    PutAllSnoc(e, done, AttrWrite(ATTR_DELETED, true, Some(BoolToString(party.deleted))));
    done := done + [AttrWrite(ATTR_DELETED, true, Some(BoolToString(party.deleted)))];
    r := Write(r, AttrWrite(ATTR_ENTITYIDSCHEMEID, party.entityIDScheme.Some?, party.EntityIDSchemeID()));
    PutAllSnoc(e, done, AttrWrite(ATTR_ENTITYIDSCHEMEID, party.entityIDScheme.Some?, party.EntityIDSchemeID()));
    done := done + [AttrWrite(ATTR_ENTITYIDSCHEMEID, party.entityIDScheme.Some?, party.EntityIDSchemeID())];
    r := Write(r, TextWrite(ATTR_ENTITYID, party.entityID));
    PutAllSnoc(e, done, TextWrite(ATTR_ENTITYID, party.entityID));
    done := done + [TextWrite(ATTR_ENTITYID, party.entityID)];
    r := Write(r, TextWrite(ATTR_ENDPOINTID, party.endpointID));
    PutAllSnoc(e, done, TextWrite(ATTR_ENDPOINTID, party.endpointID));
    done := done + [TextWrite(ATTR_ENDPOINTID, party.endpointID)];
    r := Write(r, TextWrite(ATTR_NAME, party.name));
    PutAllSnoc(e, done, TextWrite(ATTR_NAME, party.name));
    done := done + [TextWrite(ATTR_NAME, party.name)];
    r := Write(r, TextWrite(ATTR_STREET, party.street));
    PutAllSnoc(e, done, TextWrite(ATTR_STREET, party.street));
    done := done + [TextWrite(ATTR_STREET, party.street)];
    r := Write(r, TextWrite(ATTR_BUILDINGNUMBER, party.buildingNumber));
    PutAllSnoc(e, done, TextWrite(ATTR_BUILDINGNUMBER, party.buildingNumber));
    done := done + [TextWrite(ATTR_BUILDINGNUMBER, party.buildingNumber)];
  }

  /**
   * convertToMicroElementPartial on a party object: the attributes are set
   * one after the other, each under its own condition.
   */
  method ConvertToMicroElementPartial(party: ProcParty, e: Element, locale: TextCodec<Locale>) returns (r: Element)
    ensures r == WithPartyAttributes(e, party.Value(), locale)
  {
    ghost var done;
    r, done := WriteLeadingAttributes(party, e, locale);
    r := Write(r, TextWrite(ATTR_POSTBOX, party.postbox));
    PutAllSnoc(e, done, TextWrite(ATTR_POSTBOX, party.postbox));
    done := done + [TextWrite(ATTR_POSTBOX, party.postbox)];
    r := Write(r, TextWrite(ATTR_ZIPCODE, party.zipCode));
    PutAllSnoc(e, done, TextWrite(ATTR_ZIPCODE, party.zipCode));
    done := done + [TextWrite(ATTR_ZIPCODE, party.zipCode)];
    r := Write(r, TextWrite(ATTR_CITY, party.city));
    PutAllSnoc(e, done, TextWrite(ATTR_CITY, party.city));
    done := done + [TextWrite(ATTR_CITY, party.city)];
    r := Write(r, AttrWrite(ATTR_COUNTRY, party.country.Some?, Formatted(locale, party.country)));
    PutAllSnoc(e, done, AttrWrite(ATTR_COUNTRY, party.country.Some?, Formatted(locale, party.country)));
    done := done + [AttrWrite(ATTR_COUNTRY, party.country.Some?, Formatted(locale, party.country))];
    r := Write(r, TextWrite(ATTR_REGISTRATIONNAME, party.registrationName));
    PutAllSnoc(e, done, TextWrite(ATTR_REGISTRATIONNAME, party.registrationName));
    done := done + [TextWrite(ATTR_REGISTRATIONNAME, party.registrationName)];
    r := Write(r, TextWrite(ATTR_COMPANYREGISTRATIONNUMBER, party.companyRegistrationNumber));
    PutAllSnoc(e, done, TextWrite(ATTR_COMPANYREGISTRATIONNUMBER, party.companyRegistrationNumber));
    done := done + [TextWrite(ATTR_COMPANYREGISTRATIONNUMBER, party.companyRegistrationNumber)];
    r := Write(r, TextWrite(ATTR_VATIN, party.vatin));
    PutAllSnoc(e, done, TextWrite(ATTR_VATIN, party.vatin));
    done := done + [TextWrite(ATTR_VATIN, party.vatin)];
    r := Write(r, TextWrite(ATTR_BIC, party.bic));
    PutAllSnoc(e, done, TextWrite(ATTR_BIC, party.bic));
    done := done + [TextWrite(ATTR_BIC, party.bic)];
    r := Write(r, TextWrite(ATTR_IBAN, party.iban));
    PutAllSnoc(e, done, TextWrite(ATTR_IBAN, party.iban));
    done := done + [TextWrite(ATTR_IBAN, party.iban)];
    assert done == PartyWrites(party.Value(), locale);
  }

  /**
   * What convertToNativePartial leaves in a party: every attribute passed
   * through the matching setter, an unparsable or missing id as
   * ILLEGAL_UINT, a missing deleted flag as false, the scheme as the
   * registry's scheme of that id.
   */
  function PartyOfAttributes(e: Element, schemes: map<string, IdSchemes.EntityIDScheme>, locale: TextCodec<Locale>)
    : (r: PartyValue)
    ensures Clamped(r)
    ensures Attribute(e, ATTR_ID).None? ==> r.id == ILLEGAL_UINT
    ensures Attribute(e, ATTR_DELETED).None? ==> r.deleted == DEFAULT_DELETED
    ensures r.entityIDScheme.Some? <==> Attribute(e, ATTR_ENTITYIDSCHEMEID).Some? && Attribute(e, ATTR_ENTITYIDSCHEMEID).value in schemes
    ensures r.entityIDScheme.Some? ==> r.entityIDScheme.value in schemes.Values
    ensures Attribute(e, ATTR_IBAN).None? ==> r.iban.None?
  {
    PartyValue(ParseInt(Attribute(e, ATTR_ID), ILLEGAL_UINT),
               ParseBool(Attribute(e, ATTR_DELETED), DEFAULT_DELETED),
               IdSchemes.Lookup(schemes, Attribute(e, ATTR_ENTITYIDSCHEMEID)),
               EnsuredLength(Attribute(e, ATTR_ENTITYID), LENGTH_ENTITYID),
               EnsuredLength(Attribute(e, ATTR_ENDPOINTID), LENGTH_ENDPOINTID),
               EnsuredLength(Attribute(e, ATTR_NAME), LENGTH_NAME),
               EnsuredLength(Attribute(e, ATTR_STREET), LENGTH_STREET),
               EnsuredLength(Attribute(e, ATTR_BUILDINGNUMBER), LENGTH_BUILDINGNUMBER),
               EnsuredLength(Attribute(e, ATTR_POSTBOX), LENGTH_POSTBOX),
               EnsuredLength(Attribute(e, ATTR_ZIPCODE), LENGTH_ZIPCODE),
               EnsuredLength(Attribute(e, ATTR_CITY), LENGTH_CITY),
               Parsed(locale, Attribute(e, ATTR_COUNTRY)),
               EnsuredLength(Attribute(e, ATTR_REGISTRATIONNAME), LENGTH_REGISTRATIONNAME),
               EnsuredLength(Attribute(e, ATTR_COMPANYREGISTRATIONNUMBER), LENGTH_COMPANYREGISTRATIONNUMBER),
               EnsuredLength(Attribute(e, ATTR_VATIN), LENGTH_VATIN),
               EnsuredLength(Attribute(e, ATTR_BIC), LENGTH_BIC),
               EnsuredLength(Attribute(e, ATTR_IBAN), LENGTH_IBAN))
  }

  /** The first eight setters convertToNativePartial calls, from the id to the building number. */
  method ReadLeadingAttributes(party: ProcParty, e: Element, registry: IdSchemes.EntityIDSchemeManager)
    requires party.Valid()
    modifies party
    ensures party.Valid()
    ensures party.Value()
            == old(party.Value()).(id := ParseInt(Attribute(e, ATTR_ID), ILLEGAL_UINT),
                                   deleted := ParseBool(Attribute(e, ATTR_DELETED), DEFAULT_DELETED),
                                   entityIDScheme := SchemeAfterSet(old(party.entityIDScheme),
                                                                   IdSchemes.Lookup(registry.schemes, Attribute(e, ATTR_ENTITYIDSCHEMEID))),
                                   entityID := EnsuredLength(Attribute(e, ATTR_ENTITYID), LENGTH_ENTITYID),
                                   endpointID := EnsuredLength(Attribute(e, ATTR_ENDPOINTID), LENGTH_ENDPOINTID),
                                   name := EnsuredLength(Attribute(e, ATTR_NAME), LENGTH_NAME),
                                   street := EnsuredLength(Attribute(e, ATTR_STREET), LENGTH_STREET),
                                   buildingNumber := EnsuredLength(Attribute(e, ATTR_BUILDINGNUMBER), LENGTH_BUILDINGNUMBER))
  {
    party.SetID(ParseInt(Attribute(e, ATTR_ID), ILLEGAL_UINT));
    var c := party.SetDeleted(ParseBool(Attribute(e, ATTR_DELETED), DEFAULT_DELETED));
    var scheme := registry.GetIDSchemeFromID(Attribute(e, ATTR_ENTITYIDSCHEMEID));
    c := party.SetEntityIDScheme(scheme);
    c := party.SetEntityID(Attribute(e, ATTR_ENTITYID));
    c := party.SetEndpointID(Attribute(e, ATTR_ENDPOINTID));
    c := party.SetName(Attribute(e, ATTR_NAME));
    c := party.SetStreet(Attribute(e, ATTR_STREET));
    c := party.SetBuildingNumber(Attribute(e, ATTR_BUILDINGNUMBER));
  }

  /**
   * convertToNativePartial: the setters called in turn on the party, the
   * scheme looked up in the registry. A looked-up scheme equal to the stored
   * one by EntityIDScheme.equals leaves the stored one in place.
   */
  method ConvertToNativePartial(party: ProcParty, e: Element, registry: IdSchemes.EntityIDSchemeManager,
                                locale: TextCodec<Locale>)
    requires party.Valid()
    modifies party
    ensures party.Valid()
    ensures var r := PartyOfAttributes(e, registry.schemes, locale);
            party.Value() == r.(entityIDScheme := SchemeAfterSet(old(party.entityIDScheme), r.entityIDScheme))
    ensures Parties.Equals(party.Value(), PartyOfAttributes(e, registry.schemes, locale))
  {
    ReadLeadingAttributes(party, e, registry);
    var c := party.SetPostbox(Attribute(e, ATTR_POSTBOX));
    c := party.SetZipCode(Attribute(e, ATTR_ZIPCODE));
    c := party.SetCity(Attribute(e, ATTR_CITY));
    c := party.SetCountry(Parsed(locale, Attribute(e, ATTR_COUNTRY)));
    c := party.SetRegistrationName(Attribute(e, ATTR_REGISTRATIONNAME));
    c := party.SetCompanyRegistrationNumber(Attribute(e, ATTR_COMPANYREGISTRATIONNUMBER));
    c := party.SetVATIN(Attribute(e, ATTR_VATIN));
    c := party.SetBIC(Attribute(e, ATTR_BIC));
    c := party.SetIBAN(Attribute(e, ATTR_IBAN));
  }

  /** Every text field is either null or has text: an empty text is not written, so it could not be read back. */
  predicate NoEmptyTexts(v: PartyValue)
  {
    (v.entityID.Some? ==> HasText(v.entityID)) && (v.endpointID.Some? ==> HasText(v.endpointID))
    && (v.name.Some? ==> HasText(v.name)) && (v.street.Some? ==> HasText(v.street))
    && (v.buildingNumber.Some? ==> HasText(v.buildingNumber)) && (v.postbox.Some? ==> HasText(v.postbox))
    && (v.zipCode.Some? ==> HasText(v.zipCode)) && (v.city.Some? ==> HasText(v.city))
    && (v.registrationName.Some? ==> HasText(v.registrationName))
    && (v.companyRegistrationNumber.Some? ==> HasText(v.companyRegistrationNumber))
    && (v.vatin.Some? ==> HasText(v.vatin)) && (v.bic.Some? ==> HasText(v.bic)) && (v.iban.Some? ==> HasText(v.iban))
  }

  /** What a party must hold for its attributes to read back as itself. */
  predicate AttributesWritable(v: PartyValue, schemes: map<string, IdSchemes.EntityIDScheme>)
  {
    Clamped(v) && IsInt32(v.id) && NoEmptyTexts(v)
    && (v.entityIDScheme.Some? ==> IdSchemes.Lookup(schemes, Some(v.entityIDScheme.value.id)) == v.entityIDScheme)
  }

  /** The i-th attribute of a party written on a fresh element: the write's value when its guard holds, otherwise none. */
  lemma WrittenAttribute(ws: seq<AttrWrite>, name: string, i: nat)
    requires AttrNames(ws) == PARTY_ATTRS && i < |ws|
    ensures Attribute(PutAll(NewElement(name), ws), PARTY_ATTRS[i]) == if ws[i].guard then ws[i].value else None
  {
    PartyAttrsDistinct();
    PutAllLookup(NewElement(name), ws, i);
  }

  /** Any one write of a party on a fresh element decides its attribute: the write's value when its guard holds, otherwise none. */
  lemma WrittenWrite(v: PartyValue, locale: TextCodec<Locale>, name: string, w: AttrWrite)
    requires w in PartyWrites(v, locale)
    ensures Attribute(WithPartyAttributes(NewElement(name), v, locale), w.attr) == if w.guard then w.value else None
  {
    PartyAttrsDistinct();
    PutAllFind(NewElement(name), PartyWrites(v, locale), w);
  }

  /** On a fresh element, the attributes written for the id, the deleted flag and the ID scheme are the party's fields. */
  lemma WrittenIdentity(v: PartyValue, locale: TextCodec<Locale>, name: string)
    ensures var w := WithPartyAttributes(NewElement(name), v, locale);
            Attribute(w, ATTR_ID) == Some(IntToString(v.id))
            && Attribute(w, ATTR_DELETED) == Some(BoolToString(v.deleted))
            && Attribute(w, ATTR_ENTITYIDSCHEMEID) == SchemeID(v.entityIDScheme)
  {
    WrittenWrite(v, locale, name, AttrWrite(ATTR_ID, true, Some(IntToString(v.id))));
    WrittenWrite(v, locale, name, AttrWrite(ATTR_DELETED, true, Some(BoolToString(v.deleted))));
    WrittenWrite(v, locale, name, AttrWrite(ATTR_ENTITYIDSCHEMEID, v.entityIDScheme.Some?, SchemeID(v.entityIDScheme)));
  }

  /** On a fresh element, the attributes written for the entity id, the endpoint id and the name are the party's fields. */
  lemma WrittenNames(v: PartyValue, locale: TextCodec<Locale>, name: string)
    requires NoEmptyTexts(v)
    ensures var w := WithPartyAttributes(NewElement(name), v, locale);
            Attribute(w, ATTR_ENTITYID) == v.entityID
            && Attribute(w, ATTR_ENDPOINTID) == v.endpointID
            && Attribute(w, ATTR_NAME) == v.name
  {
    WrittenWrite(v, locale, name, TextWrite(ATTR_ENTITYID, v.entityID));
    WrittenWrite(v, locale, name, TextWrite(ATTR_ENDPOINTID, v.endpointID));
    WrittenWrite(v, locale, name, TextWrite(ATTR_NAME, v.name));
  }

  /** On a fresh element, the attributes written for the address fields and the country are the party's fields. */
  lemma WrittenAddress(v: PartyValue, locale: TextCodec<Locale>, name: string)
    requires NoEmptyTexts(v)
    ensures var w := WithPartyAttributes(NewElement(name), v, locale);
            Attribute(w, ATTR_STREET) == v.street
            && Attribute(w, ATTR_BUILDINGNUMBER) == v.buildingNumber
            && Attribute(w, ATTR_POSTBOX) == v.postbox
            && Attribute(w, ATTR_ZIPCODE) == v.zipCode
            && Attribute(w, ATTR_CITY) == v.city
            && Attribute(w, ATTR_COUNTRY) == Formatted(locale, v.country)
  {
    WrittenWrite(v, locale, name, TextWrite(ATTR_STREET, v.street));
    WrittenWrite(v, locale, name, TextWrite(ATTR_BUILDINGNUMBER, v.buildingNumber));
    WrittenWrite(v, locale, name, TextWrite(ATTR_POSTBOX, v.postbox));
    WrittenWrite(v, locale, name, TextWrite(ATTR_ZIPCODE, v.zipCode));
    WrittenWrite(v, locale, name, TextWrite(ATTR_CITY, v.city));
    WrittenWrite(v, locale, name, AttrWrite(ATTR_COUNTRY, v.country.Some?, Formatted(locale, v.country)));
  }

  /** On a fresh element, the attributes written for the registration and bank fields are the party's fields. */
  lemma WrittenRegistration(v: PartyValue, locale: TextCodec<Locale>, name: string)
    requires NoEmptyTexts(v)
    ensures var w := WithPartyAttributes(NewElement(name), v, locale);
            Attribute(w, ATTR_REGISTRATIONNAME) == v.registrationName
            && Attribute(w, ATTR_COMPANYREGISTRATIONNUMBER) == v.companyRegistrationNumber
            && Attribute(w, ATTR_VATIN) == v.vatin
            && Attribute(w, ATTR_BIC) == v.bic
            && Attribute(w, ATTR_IBAN) == v.iban
  {
    WrittenWrite(v, locale, name, TextWrite(ATTR_REGISTRATIONNAME, v.registrationName));
    WrittenWrite(v, locale, name, TextWrite(ATTR_COMPANYREGISTRATIONNUMBER, v.companyRegistrationNumber));
    WrittenWrite(v, locale, name, TextWrite(ATTR_VATIN, v.vatin));
    WrittenWrite(v, locale, name, TextWrite(ATTR_BIC, v.bic));
    WrittenWrite(v, locale, name, TextWrite(ATTR_IBAN, v.iban));
  }

  /** Writing a party's attributes on a fresh element and reading them back yields the party. */
  lemma ReadOfWritten(v: PartyValue, schemes: map<string, IdSchemes.EntityIDScheme>, locale: TextCodec<Locale>,
                      name: string)
    requires RoundTrips(locale) && AttributesWritable(v, schemes)
    ensures PartyOfAttributes(WithPartyAttributes(NewElement(name), v, locale), schemes, locale) == v
  {
    WrittenIdentity(v, locale, name);
    WrittenNames(v, locale, name);
    WrittenAddress(v, locale, name);
    WrittenRegistration(v, locale, name);
    ParsedFormatted(locale, v.country);
    ParseIntOfIntToString(v.id, ILLEGAL_UINT);
    ParseBoolOfBoolToString(v.deleted, DEFAULT_DELETED);
  }

  /**
   * As written, a party without a VATIN loses its IBAN on the way through
   * the attributes; with a VATIN, the IBAN is kept.
   */
  lemma IbanAsWritten(v: PartyValue, schemes: map<string, IdSchemes.EntityIDScheme>, locale: TextCodec<Locale>,
                      name: string)
    ensures var r := PartyOfAttributes(WithPartyAttributesAsWritten(NewElement(name), v, locale), schemes, locale);
            r.iban == if HasText(v.vatin) then EnsuredLength(v.iban, LENGTH_IBAN) else None
  {
    WrittenAttribute(PartyWritesAsWritten(v, locale), name, 16);
  }

  /** The concrete input: no VATIN and the IBAN "x"; as written the attributes read back carry no IBAN, corrected they do. */
  lemma IbanLostAsWrittenExample(schemes: map<string, IdSchemes.EntityIDScheme>, locale: TextCodec<Locale>)
    ensures var v := EmptyParty.(iban := Some("x"));
            PartyOfAttributes(WithPartyAttributesAsWritten(NewElement("party"), v, locale), schemes, locale).iban == None
            && PartyOfAttributes(WithPartyAttributes(NewElement("party"), v, locale), schemes, locale).iban.Some?
  {
    var v := EmptyParty.(iban := Some("x"));
    IbanAsWritten(v, schemes, locale, "party");
    WrittenAttribute(PartyWrites(v, locale), "party", 16);
  }
}
