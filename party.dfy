/**
 * Parties (AbstractProcParty together with its bases AbstractProcDeletableObject
 * and AbstractProcObject): a database id, a deleted flag and fifteen
 * optional fields. Every text setter clamps its argument to the column
 * length, compares, and stores only when the value differs.
 */
module Parties {
  import opened Common
  import IdSchemes

  /** java.util.Locale, as far as parties use it: a language and a country code. */
  datatype Locale = Locale(language: string, country: string)

  // The column lengths of the text fields.
  const LENGTH_ENTITYID: nat := LENGTH_TEXT
  const LENGTH_ENDPOINTID: nat := LENGTH_TEXT_LONG
  const LENGTH_NAME: nat := LENGTH_TEXT
  const LENGTH_STREET: nat := LENGTH_TEXT
  const LENGTH_BUILDINGNUMBER: nat := LENGTH_TEXT
  const LENGTH_POSTBOX: nat := LENGTH_TEXT
  const LENGTH_ZIPCODE: nat := LENGTH_TEXT
  const LENGTH_CITY: nat := LENGTH_TEXT
  const LENGTH_REGISTRATIONNAME: nat := LENGTH_TEXT
  const LENGTH_COMPANYREGISTRATIONNUMBER: nat := LENGTH_TEXT
  const LENGTH_VATIN: nat := LENGTH_TEXT
  const LENGTH_BIC: nat := LENGTH_TEXT
  const LENGTH_IBAN: nat := LENGTH_TEXT

  /** DEFAULT_DELETED: a new object is not deleted. */
  const DEFAULT_DELETED := false

  /** The state of a party, field by field. */
  datatype PartyValue = PartyValue(
    id: int,
    deleted: bool,
    entityIDScheme: Option<IdSchemes.EntityIDScheme>,
    entityID: Option<string>,
    endpointID: Option<string>,
    name: Option<string>,
    street: Option<string>,
    buildingNumber: Option<string>,
    postbox: Option<string>,
    zipCode: Option<string>,
    city: Option<string>,
    country: Option<Locale>,
    registrationName: Option<string>,
    companyRegistrationNumber: Option<string>,
    vatin: Option<string>,
    bic: Option<string>,
    iban: Option<string>)

  /** A freshly constructed party: id 0, not deleted, every field null. */
  const EmptyParty := PartyValue(0, DEFAULT_DELETED, None, None, None, None, None, None, None, None, None,
                                 None, None, None, None, None, None)

  /** What the setters guarantee: every text field fits its column. */
  predicate Clamped(p: PartyValue)
  {
    FitsIn(p.entityID, LENGTH_ENTITYID) && FitsIn(p.endpointID, LENGTH_ENDPOINTID)
    && FitsIn(p.name, LENGTH_NAME) && FitsIn(p.street, LENGTH_STREET)
    && FitsIn(p.buildingNumber, LENGTH_BUILDINGNUMBER) && FitsIn(p.postbox, LENGTH_POSTBOX)
    && FitsIn(p.zipCode, LENGTH_ZIPCODE) && FitsIn(p.city, LENGTH_CITY)
    && FitsIn(p.registrationName, LENGTH_REGISTRATIONNAME)
    && FitsIn(p.companyRegistrationNumber, LENGTH_COMPANYREGISTRATIONNUMBER)
    && FitsIn(p.vatin, LENGTH_VATIN) && FitsIn(p.bic, LENGTH_BIC) && FitsIn(p.iban, LENGTH_IBAN)
  }

  /**
   * setEndpointID as written: it compares the clamped value with the field
   * but, when they differ, stores the argument as it was passed.
   */
  function EndpointSetAsWritten(current: Option<string>, s: Option<string>): (r: (Option<string>, Change))
    ensures r.1 == Unchanged <==> current == EnsuredLength(s, LENGTH_ENDPOINTID)
    ensures r.1 == Changed ==> r.0 == s
    ensures r.1 == Unchanged ==> r.0 == current
  {
    var clamped := EnsuredLength(s, LENGTH_ENDPOINTID);
    if current == clamped then (current, Unchanged) else (s, Changed)
  }

  /**
   * An endpoint id longer than its column is stored unclamped, and setting
   * it again answers CHANGED once more.
   */
  lemma EndpointSetAsWrittenStoresTooLong(t: string)
    requires |t| > LENGTH_ENDPOINTID
    ensures var (v, c) := EndpointSetAsWritten(None, Some(t));
            c == Changed && v == Some(t) && !FitsIn(v, LENGTH_ENDPOINTID)
            && EndpointSetAsWritten(v, Some(t)).1 == Changed
  {
    assert EnsuredLength(Some(t), LENGTH_ENDPOINTID) != Some(t);
  }

  /** A concrete input: a text one character longer than the endpoint column. */
  lemma EndpointSetAsWrittenExample()
    ensures var t := seq(LENGTH_ENDPOINTID + 1, _ => 'x');
            !FitsIn(EndpointSetAsWritten(None, Some(t)).0, LENGTH_ENDPOINTID)
  {
    var t := seq(LENGTH_ENDPOINTID + 1, _ => 'x');
    EndpointSetAsWrittenStoresTooLong(t);
  }

  /** getEntityIDSchemeID: the id of the scheme, or null when there is none. */
  function SchemeID(s: Option<IdSchemes.EntityIDScheme>): (r: Option<string>)
    ensures r.None? <==> s.None?
    ensures r.Some? ==> r.value == s.value.id
  {
    match s
    case None => None
    case Some(scheme) => Some(scheme.id)
  }

  /** getCountryCountry: the country code of the locale, or null when there is none. */
  function CountryCode(c: Option<Locale>): (r: Option<string>)
    ensures r.None? <==> c.None?
    ensures r.Some? ==> r.value == c.value.country
  {
    match c
    case None => None
    case Some(l) => Some(l.country)
  }

  /** EqualsUtils.equals on two optional schemes, with the schemes' own equals. */
  predicate SameScheme(a: Option<IdSchemes.EntityIDScheme>, b: Option<IdSchemes.EntityIDScheme>)
  {
    if a.None? || b.None? then a == b else IdSchemes.Equals(a.value, b.value)
  }

  /**
   * The scheme setEntityIDScheme leaves in the field: the current one when
   * EntityIDScheme.equals finds it equal to the argument (a scheme that
   * differs only in its display name does not replace it), else the argument.
   */
  function SchemeAfterSet(current: Option<IdSchemes.EntityIDScheme>, s: Option<IdSchemes.EntityIDScheme>)
    : (r: Option<IdSchemes.EntityIDScheme>)
    ensures SameScheme(r, s)
    ensures r == s || (r == current && r.Some? && r.value.(displayName := "") == s.value.(displayName := ""))
    ensures current.None? ==> r == s
  {
    if SameScheme(current, s) then current else s
  }

  /** A scheme that differs from the stored one only in its display name leaves the stored one in place. */
  lemma SchemeAfterSetKeepsDisplayName(current: IdSchemes.EntityIDScheme, name: string)
    ensures SchemeAfterSet(Some(current), Some(current.(displayName := name))) == Some(current)
  {
  }

  /**
   * equals: the same id and deleted flag (the base classes) and all fifteen
   * fields equal, the scheme compared with EntityIDScheme.equals.
   */
  function Equals(a: PartyValue, b: PartyValue): (r: bool)
    ensures r ==> a.id == b.id && a.deleted == b.deleted && a.name == b.name && a.iban == b.iban
  {
    a.id == b.id && a.deleted == b.deleted
    && SameScheme(a.entityIDScheme, b.entityIDScheme)
    && a.entityID == b.entityID && a.endpointID == b.endpointID && a.name == b.name
    && a.street == b.street && a.buildingNumber == b.buildingNumber && a.postbox == b.postbox
    && a.zipCode == b.zipCode && a.city == b.city && a.country == b.country
    && a.registrationName == b.registrationName
    && a.companyRegistrationNumber == b.companyRegistrationNumber
    && a.vatin == b.vatin && a.bic == b.bic && a.iban == b.iban
  }

  /**
   * equals is value equality except that the schemes' display names are
   * not compared.
   */
  lemma EqualsIsValueEqualityUpToSchemeName(a: PartyValue, b: PartyValue)
    ensures Equals(a, b) <==> NameBlanked(a) == NameBlanked(b)
  {
  }

  /** A party with the display name of its scheme blanked out. */
  function NameBlanked(p: PartyValue): (r: PartyValue)
    ensures r.entityIDScheme == SchemeKey(p.entityIDScheme)
    ensures r.(entityIDScheme := p.entityIDScheme) == p
  {
    p.(entityIDScheme := SchemeKey(p.entityIDScheme))
  }

  /** A scheme with its display name blanked out: what equals looks at. */
  function SchemeKey(s: Option<IdSchemes.EntityIDScheme>): (r: Option<IdSchemes.EntityIDScheme>)
    ensures r.None? <==> s.None?
    ensures r.Some? ==> r.value.displayName == "" && r.value.id == s.value.id
  {
    match s
    case None => None
    case Some(scheme) => Some(scheme.(displayName := ""))
  }

  /** Every party equals itself. */
  lemma EqualsReflexive(a: PartyValue)
    ensures Equals(a, a)
  {
  }

  class ProcParty {
    var id: int
    var deleted: bool
    var entityIDScheme: Option<IdSchemes.EntityIDScheme>
    var entityID: Option<string>
    var endpointID: Option<string>
    var name: Option<string>
    var street: Option<string>
    var buildingNumber: Option<string>
    var postbox: Option<string>
    var zipCode: Option<string>
    var city: Option<string>
    var country: Option<Locale>
    var registrationName: Option<string>
    var companyRegistrationNumber: Option<string>
    var vatin: Option<string>
    var bic: Option<string>
    var iban: Option<string>

    function Value(): PartyValue
      reads this
    {
      PartyValue(id, deleted, entityIDScheme, entityID, endpointID, name, street, buildingNumber, postbox,
                 zipCode, city, country, registrationName, companyRegistrationNumber, vatin, bic, iban)
    }

    /** The class invariant: every text field fits its column. */
    ghost predicate Valid()
      reads this
    {
      Clamped(Value())
    }

    constructor ()
      ensures Valid() && Value() == EmptyParty
    {
      id := 0;
      deleted := DEFAULT_DELETED;
      entityIDScheme, entityID, endpointID, name, street := None, None, None, None, None;
      buildingNumber, postbox, zipCode, city, country := None, None, None, None, None;
      registrationName, companyRegistrationNumber, vatin, bic, iban := None, None, None, None, None;
    }

    /** getEntityIDSchemeID. */
    function EntityIDSchemeID(): Option<string>
      reads this
    {
      SchemeID(entityIDScheme)
    }

    /** getCountryCountry. */
    function CountryCountry(): Option<string>
      reads this
    {
      CountryCode(country)
    }

    /** setID (AbstractProcObject): the id is overwritten. */
    method SetID(n: int)
      requires Valid()
      modifies this`id
      ensures Valid() && Value() == old(Value()).(id := n)
    {
      id := n;
    }

    /** setDeleted (AbstractProcDeletableObject): CHANGED exactly when the flag flips. */
    method SetDeleted(b: bool) returns (c: Change)
      requires Valid()
      modifies this`deleted
      ensures Valid() && Value() == old(Value()).(deleted := b)
      ensures c == Unchanged <==> old(deleted) == b
    {
      if b == deleted {
        return Unchanged;
      }
      deleted := b;
      c := Changed;
    }

    method SetEntityIDScheme(s: Option<IdSchemes.EntityIDScheme>) returns (c: Change)
      requires Valid()
      modifies this`entityIDScheme
      ensures Valid() && Value() == old(Value()).(entityIDScheme := SchemeAfterSet(old(entityIDScheme), s))
      ensures c == Unchanged <==> SameScheme(old(entityIDScheme), s)
      ensures entityIDScheme == if SameScheme(old(entityIDScheme), s) then old(entityIDScheme) else s
    {
      if SameScheme(entityIDScheme, s) {
        return Unchanged;
      }
      entityIDScheme := s;
      c := Changed;
    }

    method SetEntityID(s: Option<string>) returns (c: Change)
      requires Valid()
      modifies this`entityID
      ensures Valid() && (entityID, c) == ClampedSet(old(entityID), s, LENGTH_ENTITYID)
      ensures Value() == old(Value()).(entityID := entityID)
    {
      var clamped := EnsuredLength(s, LENGTH_ENTITYID);
      if entityID == clamped {
        return Unchanged;
      }
      entityID := clamped;
      c := Changed;
    }

    /**
     * setEndpointID, storing the clamped value as every other setter does
     * (EndpointSetAsWritten is the variant that stores the raw argument).
     */
    method SetEndpointID(s: Option<string>) returns (c: Change)
      requires Valid()
      modifies this`endpointID
      ensures Valid() && (endpointID, c) == ClampedSet(old(endpointID), s, LENGTH_ENDPOINTID)
      ensures Value() == old(Value()).(endpointID := endpointID)
    {
      var clamped := EnsuredLength(s, LENGTH_ENDPOINTID);
      if endpointID == clamped {
        return Unchanged;
      }
      endpointID := clamped;
      c := Changed;
    }

    method SetName(s: Option<string>) returns (c: Change)
      requires Valid()
      modifies this`name
      ensures Valid() && (name, c) == ClampedSet(old(name), s, LENGTH_NAME)
      ensures Value() == old(Value()).(name := name)
    {
      var clamped := EnsuredLength(s, LENGTH_NAME);
      if name == clamped {
        return Unchanged;
      }
      name := clamped;
      c := Changed;
    }

    method SetStreet(s: Option<string>) returns (c: Change)
      requires Valid()
      modifies this`street
      ensures Valid() && (street, c) == ClampedSet(old(street), s, LENGTH_STREET)
      ensures Value() == old(Value()).(street := street)
    {
      var clamped := EnsuredLength(s, LENGTH_STREET);
      if street == clamped {
        return Unchanged;
      }
      street := clamped;
      c := Changed;
    }

    method SetBuildingNumber(s: Option<string>) returns (c: Change)
      requires Valid()
      modifies this`buildingNumber
      ensures Valid() && (buildingNumber, c) == ClampedSet(old(buildingNumber), s, LENGTH_BUILDINGNUMBER)
      ensures Value() == old(Value()).(buildingNumber := buildingNumber)
    {
      var clamped := EnsuredLength(s, LENGTH_BUILDINGNUMBER);
      if buildingNumber == clamped {
        return Unchanged;
      }
      buildingNumber := clamped;
      c := Changed;
    }

    method SetPostbox(s: Option<string>) returns (c: Change)
      requires Valid()
      modifies this`postbox
      ensures Valid() && (postbox, c) == ClampedSet(old(postbox), s, LENGTH_POSTBOX)
      ensures Value() == old(Value()).(postbox := postbox)
    {
      var clamped := EnsuredLength(s, LENGTH_POSTBOX);
      if postbox == clamped {
        return Unchanged;
      }
      postbox := clamped;
      c := Changed;
    }

    method SetZipCode(s: Option<string>) returns (c: Change)
      requires Valid()
      modifies this`zipCode
      ensures Valid() && (zipCode, c) == ClampedSet(old(zipCode), s, LENGTH_ZIPCODE)
      ensures Value() == old(Value()).(zipCode := zipCode)
    {
      var clamped := EnsuredLength(s, LENGTH_ZIPCODE);
      if zipCode == clamped {
        return Unchanged;
      }
      zipCode := clamped;
      c := Changed;
    }

    method SetCity(s: Option<string>) returns (c: Change)
      requires Valid()
      modifies this`city
      ensures Valid() && (city, c) == ClampedSet(old(city), s, LENGTH_CITY)
      ensures Value() == old(Value()).(city := city)
    {
      var clamped := EnsuredLength(s, LENGTH_CITY);
      if city == clamped {
        return Unchanged;
      }
      city := clamped;
      c := Changed;
    }

    /** setCountry: a locale is not clamped. */
    method SetCountry(l: Option<Locale>) returns (c: Change)
      requires Valid()
      modifies this`country
      ensures Valid() && Value() == old(Value()).(country := l)
      ensures c == Unchanged <==> old(country) == l
    {
      if country == l {
        return Unchanged;
      }
      country := l;
      c := Changed;
    }

    method SetRegistrationName(s: Option<string>) returns (c: Change)
      requires Valid()
      modifies this`registrationName
      ensures Valid() && (registrationName, c) == ClampedSet(old(registrationName), s, LENGTH_REGISTRATIONNAME)
      ensures Value() == old(Value()).(registrationName := registrationName)
    {
      var clamped := EnsuredLength(s, LENGTH_REGISTRATIONNAME);
      if registrationName == clamped {
        return Unchanged;
      }
      registrationName := clamped;
      c := Changed;
    }

    method SetCompanyRegistrationNumber(s: Option<string>) returns (c: Change)
      requires Valid()
      modifies this`companyRegistrationNumber
      ensures Valid()
      ensures (companyRegistrationNumber, c)
              == ClampedSet(old(companyRegistrationNumber), s, LENGTH_COMPANYREGISTRATIONNUMBER)
      ensures Value() == old(Value()).(companyRegistrationNumber := companyRegistrationNumber)
    {
      var clamped := EnsuredLength(s, LENGTH_COMPANYREGISTRATIONNUMBER);
      if companyRegistrationNumber == clamped {
        return Unchanged;
      }
      companyRegistrationNumber := clamped;
      c := Changed;
    }

    method SetVATIN(s: Option<string>) returns (c: Change)
      requires Valid()
      modifies this`vatin
      ensures Valid() && (vatin, c) == ClampedSet(old(vatin), s, LENGTH_VATIN)
      ensures Value() == old(Value()).(vatin := vatin)
    {
      var clamped := EnsuredLength(s, LENGTH_VATIN);
      if vatin == clamped {
        return Unchanged;
      }
      vatin := clamped;
      c := Changed;
    }

    method SetBIC(s: Option<string>) returns (c: Change)
      requires Valid()
      modifies this`bic
      ensures Valid() && (bic, c) == ClampedSet(old(bic), s, LENGTH_BIC)
      ensures Value() == old(Value()).(bic := bic)
    {
      var clamped := EnsuredLength(s, LENGTH_BIC);
      if bic == clamped {
        return Unchanged;
      }
      bic := clamped;
      c := Changed;
    }

    method SetIBAN(s: Option<string>) returns (c: Change)
      requires Valid()
      modifies this`iban
      ensures Valid() && (iban, c) == ClampedSet(old(iban), s, LENGTH_IBAN)
      ensures Value() == old(Value()).(iban := iban)
    {
      var clamped := EnsuredLength(s, LENGTH_IBAN);
      if iban == clamped {
        return Unchanged;
      }
      iban := clamped;
      c := Changed;
    }
  }
}
