/**
 * The attachment manager: a thin layer over one storage handler that adds a
 * single rule, namely that creating an attachment under an id the handler
 * already holds is refused.
 */
module AttachmentManager {
  import opened Common
  import opened Attachments
  import opened AttachmentStorage

  /**
   * createAttachment: null is a null pointer; an id already contained is an
   * illegal argument and nothing is persisted; otherwise the handler's
   * persist result, exactly.
   */
  function Create(st: Store, a: Option<ProcAttachment>, now: DateTime, dirCreated: bool, mime: MimeSupport)
    : (o: Outcome<ProcAttachment>)
    ensures a.None? ==> o == Outcome(Err(NullPointer("attachment")), st)
    ensures a.Some? && a.value.id in st.index ==> o.result.Err? && o.result.error.IllegalArgument? && o.store == st
    ensures a.Some? && a.value.id !in st.index ==> o == Persist(st, a, now, dirCreated, mime)
  {
    match a
    case None => Outcome(Err(NullPointer("attachment")), st)
    case Some(att) =>
      if Contains(st, Some(att.id)) then Outcome(Err(IllegalArgument("attachment ID is already contained")), st)
      else Persist(st, a, now, dirCreated, mime)
  }

  /** Creating the same attachment twice: the second attempt is refused and changes nothing. */
  lemma CreateTwiceRefused(st: Store, a: ProcAttachment, now1: DateTime, now2: DateTime, mime: MimeSupport)
    requires a.id !in st.index
    ensures var first := Create(st, Some(a), now1, true, mime);
            first.result.Ok? && a.id in first.store.index
            && var second := Create(first.store, Some(a), now2, true, mime);
               second.result.Err? && second.store == first.store
  {
  }

  class ProcAttachmentManager {
    const handler: FileStorageHandler

    constructor Over(handler: FileStorageHandler)
      ensures this.handler == handler
    {
      this.handler := handler;
    }

    /** getAttachmentOfID passes straight through to the handler. */
    method GetAttachmentOfID(id: Option<string>, now: DateTime) returns (r: Result<Option<ProcAttachment>>)
      modifies handler`cache
      ensures Outcome(r, handler.State()) == Get(old(handler.State()), id, now, handler.mime)
    {
      r := handler.GetAttachmentOfID(id, now);
    }

    method CreateAttachment(a: Option<ProcAttachment>, now: DateTime, dirCreated: bool)
      returns (r: Result<ProcAttachment>)
      modifies handler`index, handler`disk
      ensures Outcome(r, handler.State()) == Create(old(handler.State()), a, now, dirCreated, handler.mime)
    {
      if a.None? {
        return Err(NullPointer("attachment"));
      }
      var known := handler.ContainsAttachmentOfID(Some(a.value.id));
      if known {
        return Err(IllegalArgument("attachment ID is already contained"));
      }
      r := handler.PersistAttachment(a, now, dirCreated);
    }

    /** removeAttachment passes straight through to the handler. */
    method RemoveAttachment(id: Option<string>, dirDeleted: bool) returns (r: Result<Change>)
      modifies handler`index, handler`disk
      ensures Outcome(r, handler.State()) == Remove(old(handler.State()), id, dirDeleted)
    {
      r := handler.RemoveAttachment(id, dirDeleted);
    }

    /** getAllAttachmentIDs passes straight through to the handler. */
    method GetAllAttachmentIDs() returns (ids: set<string>)
      ensures ids == handler.index
    {
      ids := handler.GetAllAttachmentIDs();
    }
  }

  /** The constructor: a null storage handler is a null pointer. */
  method NewManager(handler: Option<FileStorageHandler>) returns (r: Result<ProcAttachmentManager>)
    ensures handler.None? ==> r == Err(NullPointer("storageHandler"))
    ensures handler.Some? ==> r.Ok? && fresh(r.value) && r.value.handler == handler.value
  {
    if handler.None? {
      return Err(NullPointer("storageHandler"));
    }
    var m := new ProcAttachmentManager.Over(handler.value);
    r := Ok(m);
  }
}
