/**
 * Entity-ID schemes (GLN, VATIN, DUNS, IBAN and any registered later) and the
 * registry that maps a scheme id to its scheme.
 */
module IdSchemes {
  import opened Common

  /**
   * The validator of a scheme. The two regular-expression validators of the
   * default schemes accept exactly a fixed number of ASCII digits; the VATIN
   * and IBAN validators are not part of this model and are passed in.
   */
  datatype Validator =
    | DigitsRegEx(count: nat, errorText: string)   // StringRegExValidator("^[0-9]{count}$", errorText)
    | VatinValidator                               // StringVATINValidator
    | IbanValidator                                // StringIBANValidator

  /** The VATIN and IBAN checks, for values that are not null. */
  datatype ExternalCheckers = ExternalCheckers(vatin: string -> bool, iban: string -> bool)

  /** validate(value).isValid(); a null value is invalid for every validator. */
  function IsValid(v: Validator, value: Option<string>, ext: ExternalCheckers): (r: bool)
    ensures value.None? ==> !r
    ensures v.DigitsRegEx? ==> (r <==> value.Some? && |value.value| == v.count && AllDigits(value.value))
  {
    match value
    case None => false
    case Some(s) =>
      match v
      case DigitsRegEx(n, _) => |s| == n && AllDigits(s)
      case VatinValidator => ext.vatin(s)
      case IbanValidator => ext.iban(s)
  }

  /** A scheme: id, short name, the key of its display name, and its validator. */
  datatype EntityIDScheme = EntityIDScheme(id: string, shortName: string, displayName: string, validator: Validator)

  predicate WellFormed(s: EntityIDScheme)
  {
    |s.id| > 0 && |s.shortName| > 0
  }

  /**
   * The constructor: an id or short name without text is an illegal
   * argument; a null display name or validator is a null pointer.
   */
  function NewScheme(id: Option<string>, shortName: Option<string>, displayName: Option<string>,
                     validator: Option<Validator>): (r: Result<EntityIDScheme>)
    ensures r.Ok? <==> HasText(id) && HasText(shortName) && displayName.Some? && validator.Some?
    ensures !HasText(id) ==> r.Err? && r.error.IllegalArgument?
    ensures HasText(id) && !HasText(shortName) ==> r.Err? && r.error.IllegalArgument?
    ensures HasText(id) && HasText(shortName) && (displayName.None? || validator.None?) ==> r.Err? && r.error.NullPointer?
    ensures r.Ok? ==> WellFormed(r.value)
                      && r.value == EntityIDScheme(id.value, shortName.value, displayName.value, validator.value)
  {
    if !HasText(id) then Err(IllegalArgument("ID may not be empty"))
    else if !HasText(shortName) then Err(IllegalArgument("shortName may not be empty"))
    else if displayName.None? then Err(NullPointer("displayName"))
    else if validator.None? then Err(NullPointer("validator"))
    else Ok(EntityIDScheme(id.value, shortName.value, displayName.value, validator.value))
  }

  /** getCopyWithDifferentValidator: the same scheme with another validator; null is a null pointer. */
  function CopyWithDifferentValidator(s: EntityIDScheme, validator: Option<Validator>): (r: Result<EntityIDScheme>)
    requires WellFormed(s)
    ensures validator.None? ==> r == Err(NullPointer("validator"))
    ensures validator.Some? ==> r.Ok? && r.value.id == s.id && r.value.shortName == s.shortName
                                && r.value.displayName == s.displayName && r.value.validator == validator.value
  {
    NewScheme(Some(s.id), Some(s.shortName), Some(s.displayName), validator)
  }

  /** equals: id, short name and validator; the display name is ignored. */
  function Equals(a: EntityIDScheme, b: EntityIDScheme): (r: bool)
    ensures r <==> a.(displayName := "") == b.(displayName := "")
  {
    a.id == b.id && a.shortName == b.shortName && a.validator == b.validator
  }

  /** Two schemes that differ only in their display name are equal. */
  lemma EqualsIgnoresDisplayName(a: EntityIDScheme, name: string)
    ensures Equals(a, a.(displayName := name))
  {
  }

  // The default schemes; their ids are the indices of an older enumeration.
  const GLN: EntityIDScheme := EntityIDScheme("0", "GLN", "NAME_GLN", DigitsRegEx(13, "VALIDATE_GLN"))
  const VATIN: EntityIDScheme := EntityIDScheme("1", "VATIN", "NAME_VATIN", VatinValidator)
  const DUNS: EntityIDScheme := EntityIDScheme("2", "DUNS", "NAME_DUNS", DigitsRegEx(9, "VALIDATE_DUNS"))
  const IBAN: EntityIDScheme := EntityIDScheme("3", "IBAN", "NAME_IBAN", IbanValidator)

  /** GLN accepts exactly the texts of 13 ASCII digits, DUNS exactly those of 9. */
  lemma GlnAndDunsDigitRules(value: string, ext: ExternalCheckers)
    ensures IsValid(GLN.validator, Some(value), ext) <==> |value| == 13 && AllDigits(value)
    ensures IsValid(DUNS.validator, Some(value), ext) <==> |value| == 9 && AllDigits(value)
  {
  }

  /** The registry's test cases for GLN and DUNS. */
  lemma GlnAndDunsExamples(ext: ExternalCheckers)
    ensures IsValid(GLN.validator, Some("1234567890123"), ext)
    ensures IsValid(GLN.validator, Some("0000000000000"), ext)
    ensures !IsValid(GLN.validator, Some("123456789012a"), ext)
    ensures !IsValid(GLN.validator, Some("123456789012"), ext)
    ensures !IsValid(GLN.validator, Some("12345678901234"), ext)
    ensures IsValid(DUNS.validator, Some("123456789"), ext)
    ensures IsValid(DUNS.validator, Some("000000000"), ext)
    ensures !IsValid(DUNS.validator, Some("12345678a"), ext)
    ensures !IsValid(DUNS.validator, Some("12345678"), ext)
    ensures !IsValid(DUNS.validator, Some("1234567890"), ext)
  {
    assert !IsDigit("123456789012a"[12]);
    assert !IsDigit("12345678a"[8]);
  }

  // ---------------------------------------------------------------------
  // The registry
  // ---------------------------------------------------------------------

  /** Every registered scheme is filed under its own id. */
  predicate Keyed(m: map<string, EntityIDScheme>)
  {
    forall k :: k in m ==> m[k].id == k
  }

  /** addIDScheme: null is a null pointer, an id already registered an illegal argument. */
  function Add(m: map<string, EntityIDScheme>, s: Option<EntityIDScheme>): (r: Result<map<string, EntityIDScheme>>)
    ensures s.None? ==> r == Err(NullPointer("IDScheme"))
    ensures s.Some? && s.value.id in m ==> r.Err? && r.error.IllegalArgument?
    ensures s.Some? && s.value.id !in m ==> r == Ok(m[s.value.id := s.value])
    ensures r.Ok? && Keyed(m) ==> Keyed(r.value)
  {
    match s
    case None => Err(NullPointer("IDScheme"))
    case Some(scheme) =>
      if scheme.id in m then Err(IllegalArgument("ID scheme already registered"))
      else Ok(m[scheme.id := scheme])
  }

  /** updateIDScheme: null is a null pointer, an unknown id an illegal argument; only that entry is replaced. */
  function Update(m: map<string, EntityIDScheme>, s: Option<EntityIDScheme>): (r: Result<map<string, EntityIDScheme>>)
    ensures s.None? ==> r == Err(NullPointer("IDScheme"))
    ensures s.Some? && s.value.id !in m ==> r.Err? && r.error.IllegalArgument?
    ensures s.Some? && s.value.id in m ==> r.Ok? && r.value.Keys == m.Keys && r.value[s.value.id] == s.value
                                           && forall k :: k in m && k != s.value.id ==> r.value[k] == m[k]
    ensures r.Ok? && Keyed(m) ==> Keyed(r.value)
  {
    match s
    case None => Err(NullPointer("IDScheme"))
    case Some(scheme) =>
      if scheme.id !in m then Err(IllegalArgument("ID scheme not yet registered"))
      else Ok(m[scheme.id := scheme])
  }

  /** getIDSchemeFromID: the registered scheme, or null (also for a null id). */
  function Lookup(m: map<string, EntityIDScheme>, id: Option<string>): (r: Option<EntityIDScheme>)
    ensures r.Some? <==> id.Some? && id.value in m
    ensures r.Some? ==> r.value == m[id.value]
  {
    if id.Some? && id.value in m then Some(m[id.value]) else None
  }

  /** After a successful add, the lookup of the added id gives the added scheme. */
  lemma LookupAfterAdd(m: map<string, EntityIDScheme>, s: EntityIDScheme, other: string)
    requires Add(m, Some(s)).Ok?
    ensures Lookup(Add(m, Some(s)).value, Some(s.id)) == Some(s)
    ensures other != s.id ==> Lookup(Add(m, Some(s)).value, Some(other)) == Lookup(m, Some(other))
  {
  }

  /** In a registry built by add and update, every registered scheme is found under its own id. */
  lemma LookupOfRegistered(m: map<string, EntityIDScheme>, s: EntityIDScheme)
    requires Keyed(m)
    requires s in m.Values
    ensures Lookup(m, Some(s.id)) == Some(s)
  {
    var k :| k in m && m[k] == s;
  }

  /** The registry the constructor builds: the four default schemes, added in order. */
  function Defaults(): (r: map<string, EntityIDScheme>)
    ensures r.Keys == {"0", "1", "2", "3"} && Keyed(r)
  {
    map["0" := GLN, "1" := VATIN, "2" := DUNS, "3" := IBAN]
  }

  /** Adding GLN, VATIN, DUNS and IBAN to an empty registry succeeds and gives Defaults(). */
  lemma DefaultsByAdding()
    ensures var m0 := map[];
            var m1 := Add(m0, Some(GLN));
            m1.Ok? && var m2 := Add(m1.value, Some(VATIN));
            m2.Ok? && var m3 := Add(m2.value, Some(DUNS));
            m3.Ok? && var m4 := Add(m3.value, Some(IBAN));
            m4 == Ok(Defaults())
  {
  }

  class EntityIDSchemeManager {
    /** m_aSchemes */
    var schemes: map<string, EntityIDScheme>

    ghost predicate Valid()
      reads this
    {
      Keyed(schemes)
    }

    /** The default constructor registers the four default schemes. */
    constructor ()
      ensures Valid() && schemes == Defaults()
    {
      schemes := map[];
      new;
      var ok := AddIDScheme(Some(GLN));
      ok := AddIDScheme(Some(VATIN));
      ok := AddIDScheme(Some(DUNS));
      ok := AddIDScheme(Some(IBAN));
    }

    method AddIDScheme(s: Option<EntityIDScheme>) returns (r: Result<()>)
      modifies this
      ensures var a := Add(old(schemes), s);
              (r.Ok? <==> a.Ok?) && (a.Ok? ==> schemes == a.value) && (a.Err? ==> r.error == a.error && schemes == old(schemes))
    {
      if s.None? {
        return Err(NullPointer("IDScheme"));
      }
      var key := s.value.id;
      if key in schemes {
        return Err(IllegalArgument("ID scheme already registered"));
      }
      schemes := schemes[key := s.value];
      r := Ok(());
    }

    method UpdateIDScheme(s: Option<EntityIDScheme>) returns (r: Result<()>)
      modifies this
      ensures var u := Update(old(schemes), s);
              (r.Ok? <==> u.Ok?) && (u.Ok? ==> schemes == u.value) && (u.Err? ==> r.error == u.error && schemes == old(schemes))
    {
      if s.None? {
        return Err(NullPointer("IDScheme"));
      }
      var key := s.value.id;
      if key !in schemes {
        return Err(IllegalArgument("ID scheme not yet registered"));
      }
      schemes := schemes[key := s.value];
      r := Ok(());
    }

    method GetIDSchemeFromID(id: Option<string>) returns (r: Option<EntityIDScheme>)
      ensures r == Lookup(schemes, id)
    {
      if id.Some? && id.value in schemes {
        r := Some(schemes[id.value]);
      } else {
        r := None;
      }
    }

    /** getAllRegisteredIDSchemes: a new list holding each registered scheme once, in map order. */
    method GetAllRegisteredIDSchemes() returns (all: seq<EntityIDScheme>)
      requires Valid()
      ensures |all| == |schemes|
      ensures forall s :: s in all <==> s in schemes.Values
      ensures forall i, j :: 0 <= i < j < |all| ==> all[i].id != all[j].id
    {
      all := [];
      var todo := schemes.Keys;
      while todo != {}
        invariant todo <= schemes.Keys
        invariant |all| + |todo| == |schemes|
        invariant forall s :: s in all <==> exists k :: k in schemes.Keys - todo && schemes[k] == s
        invariant forall i, j :: 0 <= i < j < |all| ==> all[i].id != all[j].id
        invariant forall i :: 0 <= i < |all| ==> all[i].id in schemes.Keys - todo
        decreases |todo|
      {
        var k :| k in todo;
        all := all + [schemes[k]];
        todo := todo - {k};
      }
    }
  }
}
