/**
 * The life-cycle states of orders and invoices (EProcState): an id each, an
 * optional display name, and whether a document in that state may still be
 * edited. The declaration order matters: the database stores the index.
 */
module ProcStates {
  import opened Common

  datatype ProcState = Undefined | Created | Sent | Accepted | Rejected | Received | Paid

  /** All states, in declaration order (values()). */
  const AllStates: seq<ProcState> := [Undefined, Created, Sent, Accepted, Rejected, Received, Paid]

  /** getID: the persistent id of a state. */
  function ID(s: ProcState): string
  {
    match s
    case Undefined => "undefined"
    case Created => "created"
    case Sent => "sent"
    case Accepted => "accepted"
    case Rejected => "rejected"
    case Received => "received"
    case Paid => "paid"
  }

  /**
   * The display-name key of a state (the EProcStateName constant); the
   * undefined state has none.
   */
  function DisplayName(s: ProcState): (r: Option<string>)
    ensures r.None? <==> s == Undefined
  {
    match s
    case Undefined => None
    case Created => Some("CREATED")
    case Sent => Some("SENT")
    case Accepted => Some("ACCEPTED")
    case Rejected => Some("REJECTED")
    case Received => Some("RECEIVED")
    case Paid => Some("PAID")
  }

  /** isEditAllowed: only a document just created or rejected by the partner may be edited. */
  function IsEditAllowed(s: ProcState): bool
  {
    match s
    case Created => true
    case Rejected => true
    case _ => false
  }

  /**
   * getDisplayText: the text of the display name in the given locale, as the
   * resolver `texts` gives it; a state without a name is an illegal state.
   */
  function DisplayText(s: ProcState, locale: string, texts: (string, string) -> string): (r: Result<string>)
    ensures r.Err? <==> s == Undefined
    ensures r.Err? ==> r.error.IllegalState?
    ensures r.Ok? ==> r.value == texts(DisplayName(s).value, locale)
  {
    match DisplayName(s)
    case None => Err(IllegalState("This state has no text!"))
    case Some(key) => Ok(texts(key, locale))
  }

  /** The first state of `states` with the given id, as EnumHelper searches. */
  function FindByID(states: seq<ProcState>, id: string): (r: Option<ProcState>)
    ensures r.Some? ==> r.value in states && ID(r.value) == id
    ensures r.None? ==> forall s :: s in states ==> ID(s) != id
  {
    if |states| == 0 then None
    else if ID(states[0]) == id then Some(states[0])
    else FindByID(states[1..], id)
  }

  /** getFromIDOrNull: the state with that id, or null (also for a null id). */
  function FromIDOrNull(id: Option<string>): (r: Option<ProcState>)
    ensures id.None? ==> r.None?
    ensures r.Some? ==> id.Some? && ID(r.value) == id.value
  {
    match id
    case None => None
    case Some(t) => FindByID(AllStates, t)
  }

  /** Every state is listed. */
  lemma AllStatesComplete(s: ProcState)
    ensures s in AllStates
  {
  }

  /** The ids are non-empty and pairwise distinct, so an id names one state. */
  lemma IDsDistinct(s: ProcState, t: ProcState)
    ensures |ID(s)| > 0
    ensures ID(s) == ID(t) ==> s == t
  {
  }

  /** The states that allow editing are exactly CREATED and REJECTED. */
  lemma EditAllowedStates()
    ensures (set s | s in AllStates && IsEditAllowed(s)) == {Created, Rejected}
  {
    var e := set s | s in AllStates && IsEditAllowed(s);
    assert Created in e && Rejected in e;
    forall s | s in e ensures s == Created || s == Rejected { }
  }

  /** Looking up the id of a state gives the state back. */
  lemma FromIDOfID(s: ProcState)
    ensures FromIDOrNull(Some(ID(s))) == Some(s)
  {
    var r := FromIDOrNull(Some(ID(s)));
    assert s in AllStates;
    assert r.Some?;
    IDsDistinct(r.value, s);
  }
}
