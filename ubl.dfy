/**
 * The parts of the UBL 2.0 invoice export that carry logic: the two
 * customizations (STANDARD and PEPPOL) with their feature flags and
 * item-name length rule, the tax key and tax value of the subtotal
 * grouping, the country and sender-contact builders, the argument checks of
 * writeInvoice and the grouping of invoice lines into tax subtotals.
 */
module Ubl {
  import opened Common
  import opened Money
  import opened Documents
  import Parties
  import Customers
  import Invoices

  // ---------------------------------------------------------------------
  // EUBLInvoiceCustomization
  // ---------------------------------------------------------------------

  datatype Customization = Standard | Peppol

  function CustomizationSchemeID(c: Customization): (r: Option<string>)
    ensures r.Some? <==> c == Peppol
  {
    if c == Peppol then Some("PEPPOL") else None
  }

  function CustomizationValue(c: Customization): (r: string)
    ensures c == Standard ==> r == "phloc-procurement"
  {
    if c == Peppol then "urn:www.cenbii.eu:transaction:biicoretrdm010:ver1.0:#urn:www.peppol.eu:bis:peppol4a:ver1.0"
    else "phloc-procurement"
  }

  function ProfileID(c: Customization): (r: Option<string>)
    ensures r.Some? <==> c == Peppol
  {
    if c == Peppol then Some("urn:www.cenbii.eu:profile:bii04:ver1.0") else None
  }

  predicate IsCountryNameAllowed(c: Customization) { c == Standard }
  predicate IsPartyContactNameAllowed(c: Customization) { c == Standard }
  predicate IsInvoiceLineTaxSubtotalAllowed(c: Customization) { c == Standard }
  predicate IsInvoiceLineCommodityClassificationAllowed(c: Customization) { c == Standard }

  /** PEPPOL switches all four features off; STANDARD switches them all on. */
  lemma FeatureFlags(c: Customization)
    ensures c == Peppol ==>
              !IsCountryNameAllowed(c) && !IsPartyContactNameAllowed(c)
              && !IsInvoiceLineTaxSubtotalAllowed(c) && !IsInvoiceLineCommodityClassificationAllowed(c)
    ensures c == Standard ==>
              IsCountryNameAllowed(c) && IsPartyContactNameAllowed(c)
              && IsInvoiceLineTaxSubtotalAllowed(c) && IsInvoiceLineCommodityClassificationAllowed(c)
  {
  }

  /** The longest item name PEPPOL admits. */
  const PEPPOL_MAX_NAME_LENGTH := 50

  const ELLIPSIS := "..."

  /**
   * ensureNameLength as written: STANDARD keeps the name; PEPPOL keeps a
   * name of at most 50 characters and replaces a longer one by its first 48
   * characters followed by "...".
   */
  function EnsureNameLengthAsWritten(c: Customization, name: Option<string>): (r: Option<string>)
    ensures r.None? <==> name.None?
    ensures c == Standard ==> r == name
    ensures name.Some? && |name.value| <= PEPPOL_MAX_NAME_LENGTH ==> r == name
    ensures c == Peppol && name.Some? && |name.value| > PEPPOL_MAX_NAME_LENGTH ==>
              r == Some(name.value[..48] + ELLIPSIS)
  {
    if c == Peppol && name.Some? && |name.value| > PEPPOL_MAX_NAME_LENGTH then Some(name.value[..48] + ELLIPSIS)
    else name
  }

  /** As written, every PEPPOL name that is shortened comes out at 51 characters, one over the limit. */
  lemma EnsureNameLengthAsWrittenTooLong(name: string)
    requires |name| > PEPPOL_MAX_NAME_LENGTH
    ensures |EnsureNameLengthAsWritten(Peppol, Some(name)).value| == PEPPOL_MAX_NAME_LENGTH + 1
  {
  }

  /**
   * ensureNameLength with the limit kept: a longer PEPPOL name becomes its
   * first 47 characters followed by "...", exactly 50 characters.
   */
  function EnsureNameLength(c: Customization, name: Option<string>): (r: Option<string>)
    ensures r.None? <==> name.None?
    ensures c == Standard ==> r == name
    ensures name.Some? && |name.value| <= PEPPOL_MAX_NAME_LENGTH ==> r == name
    ensures c == Peppol && r.Some? ==> |r.value| <= PEPPOL_MAX_NAME_LENGTH
    ensures c == Peppol && name.Some? && |name.value| > PEPPOL_MAX_NAME_LENGTH ==>
              |r.value| == PEPPOL_MAX_NAME_LENGTH
              && r.value[..PEPPOL_MAX_NAME_LENGTH - |ELLIPSIS|] == name.value[..PEPPOL_MAX_NAME_LENGTH - |ELLIPSIS|]
  {
    if c == Peppol && name.Some? && |name.value| > PEPPOL_MAX_NAME_LENGTH then
      Some(name.value[..PEPPOL_MAX_NAME_LENGTH - |ELLIPSIS|] + ELLIPSIS)
    else name
  }

  /** Shortening a name twice is shortening it once. */
  lemma EnsureNameLengthIdempotent(c: Customization, name: Option<string>)
    ensures EnsureNameLength(c, EnsureNameLength(c, name)) == EnsureNameLength(c, name)
  {
  }

  /** The two versions agree on every name that needs no shortening. */
  lemma EnsureNameLengthAgreesOnShortNames(c: Customization, name: Option<string>)
    requires name.None? || |name.value| <= PEPPOL_MAX_NAME_LENGTH
    ensures EnsureNameLength(c, name) == EnsureNameLengthAsWritten(c, name)
  {
  }

  // ---------------------------------------------------------------------
  // TaxKey and TaxValue
  // ---------------------------------------------------------------------

  /** An ETaxTypeUN5153 constant, known by its id. */
  datatype TaxType = TaxType(id: string)

  const VAT := TaxType("VAT")

  /** The grouping key of a tax subtotal; equality is component-wise. */
  datatype TaxKey = TaxKey(taxType: TaxType, taxCategory: TaxCategory, percentage: int)

  /** The TaxKey constructor: a null type, category or percentage is a null pointer, checked in that order. */
  function NewTaxKey(taxType: Option<TaxType>, taxCategory: Option<TaxCategory>, percentage: Option<int>)
    : (r: Result<TaxKey>)
    ensures r.Ok? <==> taxType.Some? && taxCategory.Some? && percentage.Some?
    ensures r.Ok? ==> r.value.taxType == taxType.value && r.value.taxCategory == taxCategory.value
                      && r.value.percentage == percentage.value
    ensures taxType.None? ==> r == Err(NullPointer("taxType"))
    ensures taxType.Some? && taxCategory.None? ==> r == Err(NullPointer("taxCategory"))
    ensures taxType.Some? && taxCategory.Some? && percentage.None? ==> r == Err(NullPointer("percentage"))
  {
    if taxType.None? then Err(NullPointer("taxType"))
    else if taxCategory.None? then Err(NullPointer("taxCategory"))
    else if percentage.None? then Err(NullPointer("percentage"))
    else Ok(TaxKey(taxType.value, taxCategory.value, percentage.value))
  }

  /** Two constructed keys are equal exactly when all three components are. */
  lemma TaxKeyEquality(t1: TaxType, c1: TaxCategory, p1: int, t2: TaxType, c2: TaxCategory, p2: int)
    ensures NewTaxKey(Some(t1), Some(c1), Some(p1)) == NewTaxKey(Some(t2), Some(c2), Some(p2))
            <==> t1 == t2 && c1 == c2 && p1 == p2
  {
  }

  /** The running taxable and tax amounts of one subtotal. */
  class TaxValue {
    var taxableAmount: int
    var taxAmount: int

    /** A new value starts at zero for both amounts. */
    constructor ()
      ensures taxableAmount == 0 && taxAmount == 0
    {
      taxableAmount, taxAmount := 0, 0;
    }

    /** increment: adds to both sums. */
    method Increment(taxable: int, tax: int)
      modifies this
      ensures taxableAmount == old(taxableAmount) + taxable
      ensures taxAmount == old(taxAmount) + tax
    {
      taxableAmount := taxableAmount + taxable;
      taxAmount := taxAmount + tax;
    }
  }

  // ---------------------------------------------------------------------
  // createCountry and the sender contact
  // ---------------------------------------------------------------------

  /** The country name of a UBL CountryType: its language and its text. */
  datatype CountryName = CountryName(languageID: string, value: string)

  datatype CountryType = CountryType(identificationCode: string, name: Option<CountryName>)

  /**
   * createCountry: no country gives no element; otherwise the country code,
   * and the name displayed in the content locale only when the
   * customization allows it. `displayCountry` stands for
   * Locale.getDisplayCountry.
   */
  function CreateCountry(country: Option<Parties.Locale>, contentLocale: Parties.Locale, c: Customization,
                         displayCountry: (Parties.Locale, Parties.Locale) -> string): (r: Option<CountryType>)
    ensures r.None? <==> country.None?
    ensures r.Some? ==> r.value.identificationCode == country.value.country
    ensures r.Some? ==> (r.value.name.Some? <==> IsCountryNameAllowed(c))
    ensures r.Some? && r.value.name.Some? ==>
              r.value.name.value == CountryName(contentLocale.language, displayCountry(country.value, contentLocale))
  {
    match country
    case None => None
    case Some(l) =>
      var name := if IsCountryNameAllowed(c) then Some(CountryName(contentLocale.language, displayCountry(l, contentLocale)))
                  else None;
      Some(CountryType(l.country, name))
  }

  /**
   * StringHelper.getConcatenatedOnDemand: both parts with text joined by the
   * separator, otherwise whichever part has text, otherwise "".
   */
  function ConcatenatedOnDemand(front: Option<string>, sep: string, end: Option<string>): (r: string)
    ensures HasText(front) && HasText(end) ==> r == front.value + sep + end.value
    ensures HasText(front) && !HasText(end) ==> r == front.value
    ensures !HasText(front) && HasText(end) ==> r == end.value
    ensures !HasText(front) && !HasText(end) ==> r == ""
  {
    if HasText(front) && HasText(end) then front.value + sep + end.value
    else if HasText(front) then front.value
    else if HasText(end) then end.value
    else ""
  }

  /** The sender's contact data (the ProcMasterData fields createSenderParty reads). */
  datatype Sender = Sender(party: Parties.PartyValue, email: Option<string>, telephone: Option<string>,
                           firstName: Option<string>, lastName: Option<string>)

  datatype Contact = Contact(email: Option<string>, telephone: Option<string>, name: Option<string>)

  /**
   * The contact of createSenderParty: e-mail and telephone when they have
   * text, and the name "first last" only when the customization allows
   * contact names and the concatenation has text.
   */
  function SenderContact(s: Sender, c: Customization): (r: Contact)
    ensures r.email.Some? <==> HasText(s.email)
    ensures r.email.Some? ==> r.email == s.email
    ensures r.telephone.Some? <==> HasText(s.telephone)
    ensures r.telephone.Some? ==> r.telephone == s.telephone
    ensures r.name.Some? <==> IsPartyContactNameAllowed(c) && (HasText(s.firstName) || HasText(s.lastName))
    ensures r.name.Some? ==> r.name.value == ConcatenatedOnDemand(s.firstName, " ", s.lastName)
  {
    var email := if HasText(s.email) then s.email else None;
    var telephone := if HasText(s.telephone) then s.telephone else None;
    var name :=
      if IsPartyContactNameAllowed(c) then
        var n := ConcatenatedOnDemand(s.firstName, " ", s.lastName);
        if |n| > 0 then Some(n) else None
      else None;
    Contact(email, telephone, name)
  }

  /** Under PEPPOL a contact never carries a name. */
  lemma PeppolContactHasNoName(s: Sender)
    ensures SenderContact(s, Peppol).name.None?
  {
  }

  // ---------------------------------------------------------------------
  // writeInvoice: argument checks
  // ---------------------------------------------------------------------

  /** ProcInvoiceOutgoing: the customer an invoice goes to and the invoice itself. */
  datatype OutgoingInvoice = OutgoingInvoice(customer: Option<Customers.CustomerValue>,
                                             invoice: Option<Invoices.InvoiceValue>)

  /** The invoice's lines when there are some; null or an empty list gives none. */
  predicate HasLines(o: OutgoingInvoice)
  {
    o.invoice.Some? && o.invoice.value.invoiceLines.Some? && |o.invoice.value.invoiceLines.value| > 0
  }

  /**
   * The checks at the top of writeInvoice: a null sender, outgoing invoice or
   * content locale is a null pointer, checked in that order; a missing
   * customer or invoice, or an invoice without lines, is an illegal argument.
   */
  function CheckWriteInvoice(sender: Option<Sender>, invoiceO: Option<OutgoingInvoice>,
                             contentLocale: Option<Parties.Locale>): (r: Option<Error>)
    ensures r.None? <==> sender.Some? && invoiceO.Some? && contentLocale.Some?
                         && invoiceO.value.customer.Some? && HasLines(invoiceO.value)
    ensures sender.None? ==> r == Some(NullPointer("sender"))
    ensures sender.Some? && invoiceO.None? ==> r == Some(NullPointer("invoiceOutgoing"))
    ensures sender.Some? && invoiceO.Some? && contentLocale.None? ==> r == Some(NullPointer("contentLocale"))
    ensures r.Some? && sender.Some? && invoiceO.Some? && contentLocale.Some? ==> r.value.IllegalArgument?
  {
    if sender.None? then Some(NullPointer("sender"))
    else if invoiceO.None? then Some(NullPointer("invoiceOutgoing"))
    else if contentLocale.None? then Some(NullPointer("contentLocale"))
    else if invoiceO.value.customer.None? || !HasLines(invoiceO.value) then
      Some(IllegalArgument("Cannot convert the passed invoice to UBL!"))
    else None
  }

  // ---------------------------------------------------------------------
  // Tax subtotals
  // ---------------------------------------------------------------------

  /** One entry of the LinkedHashMap from tax key to tax value. */
  datatype Group = Group(key: TaxKey, taxable: int, tax: int)

  /** The key of a line, when it has a unit price and a tax category. */
  function KeyOfLine(l: Invoices.InvoiceLine): (r: Option<TaxKey>)
    ensures r.Some? <==> l.unitPrice.Some? && l.taxCategory.Some?
  {
    if l.unitPrice.Some? && l.taxCategory.Some? then Some(TaxKey(VAT, l.taxCategory.value, l.unitPrice.value.vatPercentage))
    else None
  }

  /** A line the grouping loop can take: it has a key and a total. */
  predicate Groupable(l: Invoices.InvoiceLine)
  {
    l.unitPrice.Some? && l.taxCategory.Some? && l.quantity >= 0
  }

  /**
   * One iteration of the grouping loop. The key is built first (no unit price
   * is a null pointer when its VAT item is read, no tax category one in the
   * TaxKey constructor); a negative quantity leaves the line without a
   * total, which is a null pointer when its value is read. Otherwise the
   * line's net and tax totals are added to the group of its key, a new group
   * being appended when the key is new.
   */
  function AddLine(gs: seq<Group>, l: Invoices.InvoiceLine): (r: Result<seq<Group>>)
    ensures r.Ok? <==> Groupable(l)
  {
    if l.unitPrice.None? then Err(NullPointer("unitPrice"))
    else
      match NewTaxKey(Some(VAT), l.taxCategory, Some(l.unitPrice.value.vatPercentage))
      case Err(e) => Err(e)
      case Ok(k) =>
        if l.quantity < 0 then Err(NullPointer("totalNetAmount"))
        else
          var net := l.unitPrice.value.net * l.quantity;
          var tax := l.unitPrice.value.tax * l.quantity;
          match FirstMatch(gs, (g: Group) => g.key == k)
          case None => Ok(gs + [Group(k, net, tax)])
          case Some(j) => Ok(gs[j := Group(k, gs[j].taxable + net, gs[j].tax + tax)])
  }

  /** The grouping loop over all lines, from the first to the last. */
  function GroupLines(lines: seq<Invoices.InvoiceLine>): Result<seq<Group>>
    decreases |lines|
  {
    if |lines| == 0 then Ok([])
    else
      match GroupLines(lines[..|lines| - 1])
      case Err(e) => Err(e)
      case Ok(gs) => AddLine(gs, lines[|lines| - 1])
  }

  // The reference definitions the grouping is proved against.

  /** The keys of the lines, in line order, with repetitions. */
  function Keys(lines: seq<Invoices.InvoiceLine>): seq<TaxKey>
    decreases |lines|
  {
    if |lines| == 0 then []
    else
      var last := lines[|lines| - 1];
      Keys(lines[..|lines| - 1]) + (if KeyOfLine(last).Some? then [KeyOfLine(last).value] else [])
  }

  /** ks without repetitions, each key where it first occurs. */
  function FirstSeen(ks: seq<TaxKey>): seq<TaxKey>
    decreases |ks|
  {
    if |ks| == 0 then []
    else
      var p := FirstSeen(ks[..|ks| - 1]);
      if ks[|ks| - 1] in p then p else p + [ks[|ks| - 1]]
  }

  /** The sum of the k-amounts of the lines whose key is `key`. */
  function AmountFor(lines: seq<Invoices.InvoiceLine>, key: TaxKey, k: AmountKind): int
    decreases |lines|
  {
    if |lines| == 0 then 0
    else
      var last := lines[|lines| - 1];
      AmountFor(lines[..|lines| - 1], key, k)
      + (if KeyOfLine(last) == Some(key) then AmountOf(last.unitPrice.value, k) * last.quantity else 0)
  }

  predicate Distinct(ks: seq<TaxKey>)
  {
    forall i, j :: 0 <= i < j < |ks| ==> ks[i] != ks[j]
  }

  /** FirstSeen keeps every key once and nothing else. */
  lemma {:induction false} FirstSeenProperties(ks: seq<TaxKey>)
    ensures Distinct(FirstSeen(ks))
    ensures forall x :: x in FirstSeen(ks) <==> x in ks
    decreases |ks|
  {
    if |ks| > 0 {
      var init := ks[..|ks| - 1];
      FirstSeenProperties(init);
      assert ks == init + [ks[|ks| - 1]];
    }
  }

  /** The keys of the groups, in group order. */
  function GroupKeys(gs: seq<Group>): (r: seq<TaxKey>)
    ensures |r| == |gs| && forall i :: 0 <= i < |gs| ==> r[i] == gs[i].key
  {
    seq(|gs|, i requires 0 <= i < |gs| => gs[i].key)
  }

  /** What the grouping loop yields after a prefix of the lines. */
  predicate GroupsOf(gs: seq<Group>, lines: seq<Invoices.InvoiceLine>)
  {
    GroupKeys(gs) == FirstSeen(Keys(lines))
    && forall i :: 0 <= i < |gs| ==>
         gs[i].taxable == AmountFor(lines, gs[i].key, NetAmount) && gs[i].tax == AmountFor(lines, gs[i].key, TaxAmount)
  }

  /** A key no line carries has a zero sum. */
  lemma {:induction false} AmountForAbsentKey(lines: seq<Invoices.InvoiceLine>, key: TaxKey, k: AmountKind)
    requires key !in Keys(lines)
    ensures AmountFor(lines, key, k) == 0
    decreases |lines|
  {
    if |lines| > 0 {
      AmountForAbsentKey(lines[..|lines| - 1], key, k);
    }
  }

  /** Appending a line with a key appends its key. */
  lemma KeysAppend(lines: seq<Invoices.InvoiceLine>, l: Invoices.InvoiceLine)
    requires KeyOfLine(l).Some?
    ensures Keys(lines + [l]) == Keys(lines) + [KeyOfLine(l).value]
  {
    assert (lines + [l])[..|lines|] == lines;
  }

  /** Appending a line with a key adds its amount to that key's sum and to no other. */
  lemma AmountForAppend(lines: seq<Invoices.InvoiceLine>, l: Invoices.InvoiceLine, key: TaxKey, k: AmountKind)
    requires KeyOfLine(l).Some?
    ensures AmountFor(lines + [l], key, k)
            == AmountFor(lines, key, k) + (if key == KeyOfLine(l).value then AmountOf(l.unitPrice.value, k) * l.quantity else 0)
  {
    assert (lines + [l])[..|lines|] == lines;
  }

  /** A line with a key not seen before opens a new group at the end. */
  lemma NewGroupKeepsGroupsOf(gs: seq<Group>, lines: seq<Invoices.InvoiceLine>, l: Invoices.InvoiceLine)
    requires GroupsOf(gs, lines) && Groupable(l)
    requires KeyOfLine(l).value !in GroupKeys(gs)
    ensures GroupsOf(gs + [Group(KeyOfLine(l).value, l.unitPrice.value.net * l.quantity,
                                 l.unitPrice.value.tax * l.quantity)], lines + [l])
  {
    var k := KeyOfLine(l).value;
    var r := gs + [Group(k, l.unitPrice.value.net * l.quantity, l.unitPrice.value.tax * l.quantity)];
    KeysAppend(lines, l);
    FirstSeenProperties(Keys(lines));
    assert k !in Keys(lines);
    AmountForAbsentKey(lines, k, NetAmount);
    AmountForAbsentKey(lines, k, TaxAmount);
    assert (Keys(lines) + [k])[..|Keys(lines)|] == Keys(lines);
    assert GroupKeys(r) == GroupKeys(gs) + [k];
    forall i | 0 <= i < |r|
      ensures r[i].taxable == AmountFor(lines + [l], r[i].key, NetAmount)
      ensures r[i].tax == AmountFor(lines + [l], r[i].key, TaxAmount)
    {
      AmountForAppend(lines, l, r[i].key, NetAmount);
      AmountForAppend(lines, l, r[i].key, TaxAmount);
      if i < |gs| {
        assert GroupKeys(gs)[i] == r[i].key;
      }
    }
  }

  /** A line whose key has a group at j adds its totals to that group. */
  lemma OldGroupKeepsGroupsOf(gs: seq<Group>, lines: seq<Invoices.InvoiceLine>, l: Invoices.InvoiceLine, j: nat)
    requires GroupsOf(gs, lines) && Groupable(l)
    requires j < |gs| && gs[j].key == KeyOfLine(l).value
    ensures GroupsOf(gs[j := Group(gs[j].key, gs[j].taxable + l.unitPrice.value.net * l.quantity,
                                   gs[j].tax + l.unitPrice.value.tax * l.quantity)], lines + [l])
  {
    var k := KeyOfLine(l).value;
    var r := gs[j := Group(gs[j].key, gs[j].taxable + l.unitPrice.value.net * l.quantity,
                           gs[j].tax + l.unitPrice.value.tax * l.quantity)];
    KeysAppend(lines, l);
    assert GroupKeys(gs)[j] == k;
    FirstSeenProperties(Keys(lines));
    assert (Keys(lines) + [k])[..|Keys(lines)|] == Keys(lines);
    assert GroupKeys(r) == GroupKeys(gs);
    forall i | 0 <= i < |r|
      ensures r[i].taxable == AmountFor(lines + [l], r[i].key, NetAmount)
      ensures r[i].tax == AmountFor(lines + [l], r[i].key, TaxAmount)
    {
      AmountForAppend(lines, l, r[i].key, NetAmount);
      AmountForAppend(lines, l, r[i].key, TaxAmount);
      if i != j {
        assert GroupKeys(gs)[i] == r[i].key;
        assert FirstSeen(Keys(lines))[i] != FirstSeen(Keys(lines))[j];
      }
    }
  }

  /** One step of the grouping keeps GroupsOf. */
  lemma AddLineKeepsGroupsOf(gs: seq<Group>, lines: seq<Invoices.InvoiceLine>, l: Invoices.InvoiceLine)
    requires GroupsOf(gs, lines) && Groupable(l)
    ensures AddLine(gs, l).Ok? && GroupsOf(AddLine(gs, l).value, lines + [l])
  {
    var k := KeyOfLine(l).value;
    match FirstMatch(gs, (g: Group) => g.key == k)
    case None =>
      forall i | 0 <= i < |gs|
        ensures GroupKeys(gs)[i] != k
      {
      }
      NewGroupKeepsGroupsOf(gs, lines, l);
    case Some(j) =>
      OldGroupKeepsGroupsOf(gs, lines, l, j);
  }

  /** A failed step stays failed: the loop stops at the first line it cannot take. */
  lemma {:induction false} GroupLinesStopsAtError(lines: seq<Invoices.InvoiceLine>, i: nat)
    requires i <= |lines| && GroupLines(lines[..i]).Err?
    ensures GroupLines(lines) == GroupLines(lines[..i])
    decreases |lines| - i
  {
    if i < |lines| {
      var n := |lines|;
      assert lines[..n - 1][..i] == lines[..i];
      GroupLinesStopsAtError(lines[..n - 1], i);
    } else {
      assert lines[..i] == lines;
    }
  }

  /**
   * The grouping succeeds exactly when every line has a unit price, a tax
   * category and a non-negative quantity. It then yields one group per
   * distinct key, in the order the keys are first seen, and each group's
   * taxable and tax amounts are the sums of the net and tax totals of the
   * lines carrying its key.
   */
  lemma {:induction false} GroupLinesCorrect(lines: seq<Invoices.InvoiceLine>)
    ensures GroupLines(lines).Ok? <==> forall i :: 0 <= i < |lines| ==> Groupable(lines[i])
    ensures GroupLines(lines).Ok? ==> GroupsOf(GroupLines(lines).value, lines)
    ensures GroupLines(lines).Ok? ==> Distinct(GroupKeys(GroupLines(lines).value))
    decreases |lines|
  {
    if |lines| == 0 {
      assert GroupKeys([]) == [];
    } else {
      var n := |lines|;
      var init, last := lines[..n - 1], lines[n - 1];
      GroupLinesCorrect(init);
      assert lines == init + [last];
      if GroupLines(init).Ok? && Groupable(last) {
        AddLineKeepsGroupsOf(GroupLines(init).value, init, last);
      }
      if GroupLines(lines).Ok? {
        FirstSeenProperties(Keys(lines));
      }
      assert forall i :: 0 <= i < n - 1 ==> init[i] == lines[i];
    }
  }

  /**
   * The grouping loop of writeInvoice over the lines, keeping the groups in
   * first-seen order as the LinkedHashMap does.
   */
  method GroupTaxSubtotals(lines: seq<Invoices.InvoiceLine>) returns (r: Result<seq<Group>>)
    ensures r == GroupLines(lines)
  {
    var gs: seq<Group> := [];
    var i := 0;
    while i < |lines|
      invariant 0 <= i <= |lines|
      invariant GroupLines(lines[..i]) == Ok(gs)
    {
      var l := lines[i];
      assert lines[..i + 1][..i] == lines[..i];
      if l.unitPrice.None? {
        GroupLinesStopsAtError(lines, i + 1);
        return Err(NullPointer("unitPrice"));
      }
      var key := NewTaxKey(Some(VAT), l.taxCategory, Some(l.unitPrice.value.vatPercentage));
      if key.Err? {
        GroupLinesStopsAtError(lines, i + 1);
        return Err(key.error);
      }
      var k := key.value;
      if l.quantity < 0 {
        GroupLinesStopsAtError(lines, i + 1);
        return Err(NullPointer("totalNetAmount"));
      }
      var net := l.unitPrice.value.net * l.quantity;
      var tax := l.unitPrice.value.tax * l.quantity;
      var j := 0;
      while j < |gs| && gs[j].key != k
        invariant 0 <= j <= |gs|
        invariant forall m :: 0 <= m < j ==> gs[m].key != k
      {
        j := j + 1;
      }
      if j == |gs| {
        gs := gs + [Group(k, net, tax)];
      } else {
        gs := gs[j := Group(k, gs[j].taxable + net, gs[j].tax + tax)];
      }
      i := i + 1;
    }
    assert lines[..i] == lines;
    r := Ok(gs);
  }

  /** A TaxSubtotalType: the amounts and the key components of one subtotal. */
  datatype TaxSubtotal = TaxSubtotal(taxable: int, tax: int, taxType: TaxType, taxCategory: TaxCategory, percentage: int)

  function SubtotalOf(g: Group): TaxSubtotal
  {
    TaxSubtotal(g.taxable, g.tax, g.key.taxType, g.key.taxCategory, g.key.percentage)
  }

  /** The emit loop: one subtotal per group, in group order. */
  function EmitSubtotals(gs: seq<Group>): (r: seq<TaxSubtotal>)
    ensures |r| == |gs|
    ensures forall i :: 0 <= i < |gs| ==> r[i] == SubtotalOf(gs[i])
  {
    seq(|gs|, i requires 0 <= i < |gs| => SubtotalOf(gs[i]))
  }

  /** The subtotals of an invoice: one per distinct key, each carrying its lines' sums. */
  lemma SubtotalsPerDistinctKey(lines: seq<Invoices.InvoiceLine>)
    requires forall i :: 0 <= i < |lines| ==> Groupable(lines[i])
    ensures GroupLines(lines).Ok?
    ensures var st := EmitSubtotals(GroupLines(lines).value);
            |st| == |FirstSeen(Keys(lines))|
            && forall i :: 0 <= i < |st| ==>
                 var key := FirstSeen(Keys(lines))[i];
                 st[i] == TaxSubtotal(AmountFor(lines, key, NetAmount), AmountFor(lines, key, TaxAmount),
                                      key.taxType, key.taxCategory, key.percentage)
  {
    GroupLinesCorrect(lines);
    var gs := GroupLines(lines).value;
    assert forall i :: 0 <= i < |gs| ==> GroupKeys(gs)[i] == gs[i].key;
  }

  /**
   * The per-line subtotal: present only when the customization allows it,
   * carrying the line's net and tax totals and its key.
   */
  function LineSubtotal(l: Invoices.InvoiceLine, c: Customization): (r: Option<TaxSubtotal>)
    requires Groupable(l)
    ensures r.Some? <==> IsInvoiceLineTaxSubtotalAllowed(c)
    ensures r.Some? ==> r.value.taxable == LineTotal(l.unitPrice, l.quantity, NetAmount).value
                        && r.value.tax == LineTotal(l.unitPrice, l.quantity, TaxAmount).value
  {
    if IsInvoiceLineTaxSubtotalAllowed(c) then
      Some(TaxSubtotal(l.unitPrice.value.net * l.quantity, l.unitPrice.value.tax * l.quantity, VAT,
                       l.taxCategory.value, l.unitPrice.value.vatPercentage))
    else None
  }

  /** The item name of a line: its description passed through ensureNameLength, and only if that has text. */
  function ItemName(l: Invoices.InvoiceLine, c: Customization): (r: Option<string>)
    ensures r.Some? ==> |r.value| > 0
    ensures c == Peppol && r.Some? ==> |r.value| <= PEPPOL_MAX_NAME_LENGTH
    ensures c == Standard ==> r == (if HasText(l.description) then l.description else None)
  {
    var name := EnsureNameLength(c, l.description);
    if HasText(name) then name else None
  }
}
