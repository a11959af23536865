/**
 * Attachment values: an id, a title, an optional MIME type, an upload time
 * and the content, either held in memory or behind a readable resource.
 * Both Java classes are immutable once constructed, so they are values here.
 */
module Attachments {
  import opened Common
  import opened Base64

  /** A MIME type, in its textual form (IMimeType.getAsString). */
  type MimeType = string

  /** A point in time, as milliseconds since the epoch. */
  type DateTime = int

  /** A readable resource: its id, its path and the bytes its input stream yields. */
  datatype Resource = Resource(resourceID: string, path: string, content: seq<byte>)

  /** What lies behind an attachment: the two concrete classes. */
  datatype Body =
    | InMemory(data: seq<byte>)        // ProcInMemoryAttachment
    | ResourceBacked(res: Resource)    // ProcResourceAttachment

  datatype Attachment = Attachment(
    id: string,
    title: string,
    mimeType: Option<MimeType>,
    uploadDT: DateTime,
    body: Body)

  /** What every constructed attachment satisfies: id and title have text. */
  predicate WellFormed(a: Attachment)
  {
    |a.id| > 0 && |a.title| > 0
  }

  type ProcAttachment = a: Attachment | WellFormed(a)
    witness Attachment("_", "_", None, 0, InMemory([]))

  /**
   * The checks of the AbstractProcAttachment constructor, in their order:
   * an id or title without text is an illegal argument, a null upload time a
   * null pointer.
   */
  function CheckHeader(id: Option<string>, title: Option<string>, uploadDT: Option<DateTime>): (r: Option<Error>)
    ensures r.None? <==> HasText(id) && HasText(title) && uploadDT.Some?
    ensures !HasText(id) ==> r == Some(IllegalArgument("ID"))
    ensures HasText(id) && !HasText(title) ==> r == Some(IllegalArgument("title"))
    ensures HasText(id) && HasText(title) && uploadDT.None? ==> r == Some(NullPointer("uploadDT"))
  {
    if !HasText(id) then Some(IllegalArgument("ID"))
    else if !HasText(title) then Some(IllegalArgument("title"))
    else if uploadDT.None? then Some(NullPointer("uploadDT"))
    else None
  }

  /**
   * new ProcInMemoryAttachment(id, title, mime, data): the upload time is the
   * current time `now`; the header checks come first, then null data is a
   * null pointer.
   */
  function NewInMemory(id: Option<string>, title: Option<string>, mimeType: Option<MimeType>,
                       data: Option<seq<byte>>, now: DateTime): (r: Result<ProcAttachment>)
    ensures r.Ok? <==> HasText(id) && HasText(title) && data.Some?
    ensures !HasText(id) || !HasText(title) ==> r == Err(CheckHeader(id, title, Some(now)).value)
    ensures HasText(id) && HasText(title) && data.None? ==> r == Err(NullPointer("data"))
    ensures r.Ok? ==> r.value == Attachment(id.value, title.value, mimeType, now, InMemory(data.value))
  {
    match CheckHeader(id, title, Some(now))
    case Some(e) => Err(e)
    case None =>
      if data.None? then Err(NullPointer("data"))
      else
        var a: ProcAttachment := Attachment(id.value, title.value, mimeType, now, InMemory(data.value));
        Ok(a)
  }

  /**
   * The five-argument ProcResourceAttachment constructor: a null MIME type is
   * replaced by the one `fromFilename` infers from the resource path
   * (MimeTypeDeterminator), a given one is kept.
   */
  function NewResourceBacked(id: Option<string>, title: Option<string>, mimeType: Option<MimeType>,
                             uploadDT: Option<DateTime>, res: Resource,
                             fromFilename: string -> Option<MimeType>): (r: Result<ProcAttachment>)
    ensures r.Ok? <==> CheckHeader(id, title, uploadDT).None?
    ensures r.Err? ==> r.error == CheckHeader(id, title, uploadDT).value
    ensures r.Ok? ==> r.value.id == id.value && r.value.title == title.value
                      && r.value.uploadDT == uploadDT.value && r.value.body == ResourceBacked(res)
    ensures r.Ok? && mimeType.Some? ==> r.value.mimeType == mimeType
    ensures r.Ok? && mimeType.None? ==> r.value.mimeType == fromFilename(res.path)
  {
    var mime := if mimeType.Some? then mimeType else fromFilename(res.path);
    match CheckHeader(id, title, uploadDT)
    case Some(e) => Err(e)
    case None =>
      var a: ProcAttachment := Attachment(id.value, title.value, mime, uploadDT.value, ResourceBacked(res));
      Ok(a)
  }

  /** The constructors without a title take the resource id as the title. */
  function NewResourceBackedUntitled(id: Option<string>, mimeType: Option<MimeType>,
                                     uploadDT: Option<DateTime>, res: Resource,
                                     fromFilename: string -> Option<MimeType>): (r: Result<ProcAttachment>)
    ensures r.Ok? ==> r.value.title == res.resourceID && r.value.body == ResourceBacked(res)
    ensures r.Ok? <==> HasText(id) && |res.resourceID| > 0 && uploadDT.Some?
  {
    NewResourceBacked(id, Some(res.resourceID), mimeType, uploadDT, res, fromFilename)
  }

  /** isPersisted: false for in-memory attachments, true for resource-backed ones. */
  function IsPersisted(a: Attachment): (r: bool)
    ensures r <==> a.body.ResourceBacked?
  {
    match a.body
    case InMemory(_) => false
    case ResourceBacked(_) => true
  }

  /** The bytes of getInputStream. */
  function Content(a: Attachment): (r: seq<byte>)
    ensures a.body.InMemory? ==> r == a.body.data
    ensures a.body.ResourceBacked? ==> r == a.body.res.content
  {
    match a.body
    case InMemory(d) => d
    case ResourceBacked(res) => res.content
  }

  /** getSize of an in-memory attachment: the number of bytes it holds. */
  function Size(a: Attachment): (r: nat)
    requires a.body.InMemory?
    ensures r == |Content(a)|
  {
    |a.body.data|
  }

  /** getBase64Encoded: the Base64 text of the content, which decodes back to it. */
  function Base64Encoded(a: Attachment): (r: string)
    ensures Decode(r) == Some(Content(a))
    ensures |r| == (|Content(a)| + 2) / 3 * 4
  {
    DecodeEncode(Content(a));
    Encode(Content(a))
  }

  /**
   * equals: the same class, equal id, title, MIME type and upload time, and
   * equal bytes (Arrays.equals) or an equal resource.
   */
  function Equals(a: Attachment, b: Attachment): (r: bool)
    ensures r ==> a.id == b.id && a.title == b.title && a.mimeType == b.mimeType && a.uploadDT == b.uploadDT
    ensures r ==> IsPersisted(a) == IsPersisted(b) && Content(a) == Content(b)
  {
    var header := a.id == b.id && a.title == b.title && a.mimeType == b.mimeType && a.uploadDT == b.uploadDT;
    match (a.body, b.body)
    case (InMemory(d1), InMemory(d2)) => header && d1 == d2
    case (ResourceBacked(r1), ResourceBacked(r2)) => header && r1 == r2
    case _ => false
  }

  /** equals compares contents, not identity: it is exactly equality of the values. */
  lemma EqualsIsValueEquality(a: Attachment, b: Attachment)
    ensures Equals(a, b) <==> a == b
  {
  }

  /** An in-memory attachment's title, MIME type and bytes are exactly those it was built with. */
  lemma InMemoryGetters(id: string, title: string, mimeType: Option<MimeType>, data: seq<byte>, now: DateTime)
    requires |id| > 0 && |title| > 0
    ensures var r := NewInMemory(Some(id), Some(title), mimeType, Some(data), now);
            r.Ok? && r.value.id == id && r.value.title == title && r.value.mimeType == mimeType
            && r.value.uploadDT == now && !IsPersisted(r.value) && Size(r.value) == |data|
  {
  }
}
