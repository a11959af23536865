/**
 * Customers (ProcCustomer): a party plus the client number it belongs to
 * and an optional list of payment terms.
 */
module Customers {
  import opened Common
  import Parties

  /** The column length of a payment term's description. */
  const LENGTH_PAYMENTTERM_DESCRIPTION: nat := LENGTH_TEXT_LONG

  /**
   * A payment term (ProcCustomerPaymentTerm) as a value: its id, the id of
   * the customer owning it, a description and a number of days.
   */
  datatype PaymentTerm = PaymentTerm(id: int, ownerID: int, description: Option<string>, days: int)

  /** The state of a customer, besides its party fields. */
  datatype CustomerValue = CustomerValue(party: Parties.PartyValue, client: int, paymentTerms: Option<seq<PaymentTerm>>)

  /** equals: the party fields, the client and the payment terms. */
  function Equals(a: CustomerValue, b: CustomerValue): (r: bool)
    ensures r ==> a.client == b.client && a.paymentTerms == b.paymentTerms
  {
    Parties.Equals(a.party, b.party) && a.client == b.client && a.paymentTerms == b.paymentTerms
  }

  /**
   * Two customers are equal exactly when their values agree once the display
   * name of the party's scheme is blanked out.
   */
  lemma EqualsIsValueEqualityUpToSchemeName(a: CustomerValue, b: CustomerValue)
    ensures Equals(a, b) <==> a.(party := Parties.NameBlanked(a.party)) == b.(party := Parties.NameBlanked(b.party))
  {
    Parties.EqualsIsValueEqualityUpToSchemeName(a.party, b.party);
  }

  class ProcCustomer {
    const party: Parties.ProcParty
    var client: int
    var paymentTerms: Option<seq<PaymentTerm>>

    function Value(): CustomerValue
      reads this, party
    {
      CustomerValue(party.Value(), client, paymentTerms)
    }

    /** The client is never negative and a list of terms is never empty. */
    ghost predicate Valid()
      reads this, party
    {
      party.Valid() && client >= 0 && (paymentTerms.Some? ==> |paymentTerms.value| > 0)
    }

    constructor ()
      ensures Valid() && Value() == CustomerValue(Parties.EmptyParty, 0, None)
      ensures fresh(party)
    {
      party := new Parties.ProcParty();
      client := 0;
      paymentTerms := None;
    }

    /** setClient: a negative client is an illegal argument; otherwise the usual compare-and-store. */
    method SetClient(n: int) returns (r: Result<Change>)
      requires Valid()
      modifies this`client
      ensures Valid()
      ensures n < 0 ==> r == Err(IllegalArgument("email")) && client == old(client)
      ensures n >= 0 ==> client == n && r == Ok(ChangeOf(old(client), n))
    {
      if n < 0 {
        return Err(IllegalArgument("email"));
      }
      if n == client {
        return Ok(Unchanged);
      }
      client := n;
      r := Ok(Changed);
    }

    /** setPaymentTerms: an empty list is stored as null, and CHANGED answers whether that differs. */
    method SetPaymentTerms(terms: seq<PaymentTerm>) returns (c: Change)
      requires Valid()
      modifies this`paymentTerms
      ensures Valid() && paymentTerms == NonEmpty(terms)
      ensures c == ChangeOf(old(paymentTerms), paymentTerms)
    {
      var normalised := if |terms| == 0 then None else Some(terms);
      if paymentTerms == normalised {
        return Unchanged;
      }
      paymentTerms := normalised;
      c := Changed;
    }

    /** getPaymentTermOfID: the first term with that id, or null. */
    method GetPaymentTermOfID(id: int) returns (r: Option<PaymentTerm>)
      ensures paymentTerms.None? ==> r.None?
      ensures paymentTerms.Some? ==>
                match FirstMatch(paymentTerms.value, (t: PaymentTerm) => t.id == id)
                case None => r.None?
                case Some(k) => r == Some(paymentTerms.value[k])
    {
      if paymentTerms.None? {
        return None;
      }
      var terms := paymentTerms.value;
      var i := 0;
      while i < |terms|
        invariant 0 <= i <= |terms|
        invariant forall j :: 0 <= j < i ==> terms[j].id != id
      {
        if terms[i].id == id {
          return Some(terms[i]);
        }
        i := i + 1;
      }
      r := None;
    }
  }
}
