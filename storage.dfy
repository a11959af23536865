/**
 * The file-based attachment storage handler. It keeps an ordered,
 * duplicate-free index of attachment ids (written to the table-of-contents
 * file toc.xml on every change) and a cache of attachments already read back
 * from disk, which is never evicted. Each attachment lives in a directory
 * named after its id, holding attachment.dat (the bytes) and metadata.xml.
 *
 * The file system is an abstract Disk; the outcome of creating and deleting a
 * directory is passed in, as is the current time.
 */
module AttachmentStorage {
  import opened Common
  import opened Base64
  import opened Xml
  import opened Attachments

  const FILENAME_ATTACHMENT_DAT: string := "attachment.dat"
  const FILENAME_METADATA_XML: string := "metadata.xml"
  const ELEMENT_METADATA: string := "metadata"
  const ATTR_ID: string := "id"
  const ATTR_UPLOADDT: string := "uploaddt"
  const ELEMENT_TITLE: string := "title"
  const ELEMENT_MIMETYPE: string := "mimetype"

  /** One attachment directory: the content file and the metadata document (None: it cannot be read). */
  datatype Entry = Entry(content: seq<byte>, metadata: Option<Element>)

  /** The table-of-contents file: absent, unreadable, or the list of ids it holds. */
  datatype Toc = NoToc | UnreadableToc | TocList(ids: set<string>)

  /** The base directory's contents: one entry per attachment directory, and the TOC file. */
  datatype Disk = Disk(dirs: map<string, Entry>, toc: Toc)

  /** The base directory handed to the constructor. */
  datatype BaseDir = BaseDir(present: bool, isDirectory: bool, disk: Disk)

  /** MimeTypeParser.parseMimeType and MimeTypeDeterminator, which are not part of this model. */
  datatype MimeSupport = MimeSupport(parse: string -> Option<MimeType>, fromFilename: string -> Option<MimeType>)

  /** The handler's state: the index, the cache and the disk. */
  datatype Store = Store(index: set<string>, cache: map<string, ProcAttachment>, disk: Disk)

  /** Every cached attachment is filed under its own id. */
  predicate CacheKeyed(st: Store)
  {
    forall k :: k in st.cache ==> st.cache[k].id == k
  }

  /** The result of an operation together with the state it leaves behind. */
  datatype Outcome<T> = Outcome(result: Result<T>, store: Store)

  /** The path of an attachment's content file. */
  function ContentPath(id: string): (p: string)
    ensures p == id + "/" + FILENAME_ATTACHMENT_DAT
  {
    id + "/" + FILENAME_ATTACHMENT_DAT
  }

  /** The index read from the TOC file: its ids, or nothing if it is absent or cannot be read. */
  function IndexOfToc(toc: Toc): (r: set<string>)
    ensures toc.TocList? ==> r == toc.ids
    ensures !toc.TocList? ==> r == {}
  {
    match toc
    case TocList(ids) => ids
    case _ => {}
  }

  /**
   * The constructor: a null base directory is a null pointer, a missing one or
   * a plain file an illegal argument; otherwise the index is read from the TOC
   * (a read failure is only logged) and the cache starts empty.
   */
  function Open(baseDir: Option<BaseDir>): (r: Result<Store>)
    ensures baseDir.None? ==> r == Err(NullPointer("baseDir"))
    ensures baseDir.Some? ==> (r.Ok? <==> baseDir.value.present && baseDir.value.isDirectory)
    ensures r.Ok? ==> r.value.index == IndexOfToc(baseDir.value.disk.toc) && r.value.cache == map[]
                      && r.value.disk == baseDir.value.disk
  {
    match baseDir
    case None => Err(NullPointer("baseDir"))
    case Some(b) =>
      if !b.present || !b.isDirectory then Err(IllegalArgument("not an existing directory"))
      else Ok(Store(IndexOfToc(b.disk.toc), map[], b.disk))
  }

  /** containsAttachmentOfID: an id without text is never contained. */
  function Contains(st: Store, id: Option<string>): (r: bool)
    ensures !HasText(id) ==> !r
    ensures HasText(id) ==> (r <==> id.value in st.index)
  {
    HasText(id) && id.value in st.index
  }

  /** The metadata document _persistAttachmentMetaData writes, with the upload time `now`. */
  function MetadataOf(a: ProcAttachment, now: DateTime): (e: Element)
    ensures e.name == ELEMENT_METADATA
    ensures Attribute(e, ATTR_ID) == Some(a.id) && Attribute(e, ATTR_UPLOADDT) == Some(IntToString(now))
    ensures ChildText(e.children, ELEMENT_TITLE) == Some(a.title)
    ensures a.mimeType.None? ==> FirstChild(e.children, ELEMENT_MIMETYPE).None?
    ensures a.mimeType.Some? ==> ChildText(e.children, ELEMENT_MIMETYPE) == a.mimeType
  {
    Element(ELEMENT_METADATA,
            map[ATTR_ID := a.id, ATTR_UPLOADDT := IntToString(now)],
            [TextElement(ELEMENT_TITLE, a.title)] + OptTextChild(ELEMENT_MIMETYPE, a.mimeType),
            None)
  }

  /** The upload time of a metadata document: parsed with default 0, or `now` when the attribute is absent. */
  function UploadTime(meta: Element, now: DateTime): (r: DateTime)
    ensures Attribute(meta, ATTR_UPLOADDT).None? ==> r == now
    ensures Attribute(meta, ATTR_UPLOADDT).Some? ==> r == ParseLong(Attribute(meta, ATTR_UPLOADDT), 0)
  {
    match Attribute(meta, ATTR_UPLOADDT)
    case None => now
    case Some(s) => ParseLong(Some(s), 0)
  }

  /** The MIME type of a metadata document: parsed from the optional mimetype element. */
  function MetadataMime(meta: Element, mime: MimeSupport): (r: Option<MimeType>)
    ensures FirstChild(meta.children, ELEMENT_MIMETYPE).None? ==> r.None?
  {
    match ChildText(meta.children, ELEMENT_MIMETYPE)
    case None => None
    case Some(t) => mime.parse(t)
  }

  /**
   * _readAttachment: an unreadable metadata document is an illegal state, a
   * missing title element a null pointer; otherwise a resource-backed
   * attachment over the directory's content file.
   */
  function ReadAttachment(id: string, entry: Option<Entry>, now: DateTime, mime: MimeSupport): (r: Result<ProcAttachment>)
    requires |id| > 0
    ensures entry.None? || entry.value.metadata.None? ==> r == Err(IllegalState("metadata could not be read"))
    ensures r.Ok? ==> r.value.id == id && IsPersisted(r.value)
                      && r.value.uploadDT == UploadTime(entry.value.metadata.value, now)
                      && Content(r.value) == entry.value.content
  {
    if entry.None? || entry.value.metadata.None? then Err(IllegalState("metadata could not be read"))
    else
      var meta := entry.value.metadata.value;
      match FirstChild(meta.children, ELEMENT_TITLE)
      case None => Err(NullPointer("title element"))
      case Some(eTitle) =>
        var path := ContentPath(id);
        NewResourceBacked(Some(id), eTitle.text, MetadataMime(meta, mime), Some(UploadTime(meta, now)),
                          Resource(path, path, entry.value.content), mime.fromFilename)
  }

  function EntryOf(disk: Disk, id: string): (r: Option<Entry>)
    ensures r.Some? <==> id in disk.dirs
    ensures r.Some? ==> r.value == disk.dirs[id]
  {
    if id in disk.dirs then Some(disk.dirs[id]) else None
  }

  /**
   * getAttachmentOfID: an id not in the index gives null and changes nothing;
   * a cached id gives the cached attachment; otherwise the attachment is read
   * from disk and put into the cache.
   */
  function Get(st: Store, id: Option<string>, now: DateTime, mime: MimeSupport): (o: Outcome<Option<ProcAttachment>>)
    ensures !Contains(st, id) ==> o == Outcome(Ok(None), st)
    ensures Contains(st, id) && id.value in st.cache ==> o == Outcome(Ok(Some(st.cache[id.value])), st)
    ensures o.store.index == st.index && o.store.disk == st.disk
    ensures o.result.Err? ==> o.store == st
    ensures CacheKeyed(st) ==> CacheKeyed(o.store)
    ensures CacheKeyed(st) && o.result.Ok? && o.result.value.Some? ==> o.result.value.value.id == id.value
    ensures o.result.Ok? && o.result.value.Some? ==>
              o.store.cache == st.cache[id.value := o.result.value.value]
    ensures Contains(st, id) && id.value !in st.cache ==>
              var read := ReadAttachment(id.value, EntryOf(st.disk, id.value), now, mime);
              && (read.Err? ==> o == Outcome(Err(read.error), st))
              && (read.Ok? ==> o.result == Ok(Some(read.value)) && o.store.cache[id.value] == read.value)
  {
    if !Contains(st, id) then Outcome(Ok(None), st)
    else if id.value in st.cache then Outcome(Ok(Some(st.cache[id.value])), st)
    else
      match ReadAttachment(id.value, EntryOf(st.disk, id.value), now, mime)
      case Err(e) => Outcome(Err(e), st)
      case Ok(a) => Outcome(Ok(Some(a)), st.(cache := st.cache[id.value := a]))
  }

  /**
   * persistAttachment: null is a null pointer; a failure to create the
   * directory an illegal state. Otherwise the content and the metadata are
   * written, the id joins the index (an id already there is not rejected),
   * the TOC is rewritten, and a resource-backed copy is returned. The cache
   * is left alone.
   */
  function Persist(st: Store, a: Option<ProcAttachment>, now: DateTime, dirCreated: bool, mime: MimeSupport)
    : (o: Outcome<ProcAttachment>)
    ensures a.None? ==> o == Outcome(Err(NullPointer("attachment")), st)
    ensures a.Some? && !dirCreated ==> o.result.Err? && o.store == st
    ensures a.Some? && dirCreated ==> o.result.Ok?
    ensures o.result.Ok? ==>
              && o.store.index == st.index + {a.value.id}
              && o.store.cache == st.cache
              && o.store.disk.toc == TocList(o.store.index)
              && o.store.disk.dirs == st.disk.dirs[a.value.id := Entry(Content(a.value), Some(MetadataOf(a.value, now)))]
    ensures o.result.Ok? ==>
              && o.result.value.id == a.value.id && o.result.value.title == a.value.title
              && (a.value.mimeType.Some? ==> o.result.value.mimeType == a.value.mimeType)
              && o.result.value.uploadDT == now && IsPersisted(o.result.value)
              && Content(o.result.value) == Content(a.value)
  {
    match a
    case None => Outcome(Err(NullPointer("attachment")), st)
    case Some(att) =>
      if !dirCreated then Outcome(Err(IllegalState("failed to create directory")), st)
      else
        var path := ContentPath(att.id);
        var dirs := st.disk.dirs[att.id := Entry(Content(att), Some(MetadataOf(att, now)))];
        var index := st.index + {att.id};
        var r := NewResourceBacked(Some(att.id), Some(att.title), att.mimeType, Some(now),
                                   Resource(path, path, Content(att)), mime.fromFilename);
        Outcome(r, Store(index, st.cache, Disk(dirs, TocList(index))))
  }

  /**
   * removeAttachment: an id not contained gives UNCHANGED and changes nothing;
   * a failure to delete the directory is an illegal state; otherwise the id
   * leaves the index, the TOC is rewritten and the answer is CHANGED. The
   * cache is not evicted.
   */
  function Remove(st: Store, id: Option<string>, dirDeleted: bool): (o: Outcome<Change>)
    ensures !Contains(st, id) ==> o == Outcome(Ok(Unchanged), st)
    ensures Contains(st, id) && !dirDeleted ==> o.result.Err? && o.store == st
    ensures Contains(st, id) && dirDeleted ==>
              && o.result == Ok(Changed)
              && o.store.index == st.index - {id.value}
              && o.store.cache == st.cache
              && o.store.disk == Disk(st.disk.dirs - {id.value}, TocList(o.store.index))
  {
    if !Contains(st, id) then Outcome(Ok(Unchanged), st)
    else if !dirDeleted then Outcome(Err(IllegalState("failed to delete directory")), st)
    else
      var index := st.index - {id.value};
      Outcome(Ok(Changed), Store(index, st.cache, Disk(st.disk.dirs - {id.value}, TocList(index))))
  }

  // ---------------------------------------------------------------------
  // Properties relating several operations
  // ---------------------------------------------------------------------

  /** A second get of an id just read from disk returns the very record that was cached. */
  lemma GetAgainHitsCache(st: Store, id: Option<string>, now1: DateTime, now2: DateTime, mime: MimeSupport)
    requires Get(st, id, now1, mime).result.Ok?
    ensures var o1 := Get(st, id, now1, mime);
            Get(o1.store, id, now2, mime) == Outcome(o1.result, o1.store)
  {
  }

  /** The metadata written by persist reads back to the persisted title and MIME type and the upload time. */
  lemma {:induction false} ReadBackMetadata(a: ProcAttachment, content: seq<byte>, now: DateTime, later: DateTime,
                                            mime: MimeSupport)
    requires LONG_MIN <= now <= LONG_MAX
    requires a.mimeType.Some? ==> mime.parse(a.mimeType.value) == a.mimeType
    ensures var path := ContentPath(a.id);
            ReadAttachment(a.id, Some(Entry(content, Some(MetadataOf(a, now)))), later, mime)
            == NewResourceBacked(Some(a.id), Some(a.title), a.mimeType, Some(now),
                                 Resource(path, path, content), mime.fromFilename)
  {
    var meta := MetadataOf(a, now);
    ParseLongOfIntToString(now, 0);
    assert UploadTime(meta, later) == now;
    if a.mimeType.None? {
      assert MetadataMime(meta, mime) == None;
    } else {
      assert MetadataMime(meta, mime) == a.mimeType;
    }
  }

  /**
   * Reading back a freshly persisted attachment that was not cached gives
   * exactly the record persist returned (the two clock reads of persist are
   * one `now` here).
   */
  lemma GetAfterPersist(st: Store, a: ProcAttachment, now: DateTime, later: DateTime, mime: MimeSupport)
    requires a.id !in st.cache
    requires LONG_MIN <= now <= LONG_MAX
    requires a.mimeType.Some? ==> mime.parse(a.mimeType.value) == a.mimeType
    ensures var p := Persist(st, Some(a), now, true, mime);
            Get(p.store, Some(a.id), later, mime).result == Ok(Some(p.result.value))
  {
    var p := Persist(st, Some(a), now, true, mime);
    ReadBackMetadata(a, Content(a), now, later, mime);
    assert EntryOf(p.store.disk, a.id) == Some(Entry(Content(a), Some(MetadataOf(a, now))));
  }

  /**
   * As written, the never-evicted cache outlives a remove: removing an id and
   * persisting a different attachment under it, get still returns the record
   * cached before the remove.
   */
  lemma StaleCacheAfterRemove(st: Store, id: string, a: ProcAttachment, now: DateTime, mime: MimeSupport)
    requires id in st.index && id in st.cache && a.id == id
    ensures var r := Remove(st, Some(id), true).store;
            var p := Persist(r, Some(a), now, true, mime).store;
            Get(p, Some(id), now, mime).result == Ok(Some(st.cache[id]))
  {
  }

  /** After a successful persist or remove, reopening the base directory restores the index from the TOC. */
  lemma ReopenRestoresIndex(st: Store, a: ProcAttachment, id: Option<string>, now: DateTime, mime: MimeSupport)
    ensures var p := Persist(st, Some(a), now, true, mime).store;
            Open(Some(BaseDir(true, true, p.disk))) == Ok(Store(p.index, map[], p.disk))
    ensures var r := Remove(st, id, true);
            r.result == Ok(Changed) ==> Open(Some(BaseDir(true, true, r.store.disk))) == Ok(Store(r.store.index, map[], r.store.disk))
  {
  }

  /** Every indexed id has a directory on disk: persist and remove keep this. */
  predicate IndexOnDisk(st: Store)
  {
    forall id :: id in st.index ==> id in st.disk.dirs
  }

  lemma PersistRemoveKeepIndexOnDisk(st: Store, a: Option<ProcAttachment>, id: Option<string>, now: DateTime,
                                     dirOk: bool, mime: MimeSupport)
    requires IndexOnDisk(st)
    ensures IndexOnDisk(Persist(st, a, now, dirOk, mime).store)
    ensures IndexOnDisk(Remove(st, id, dirOk).store)
  {
  }

  // ---------------------------------------------------------------------
  // The handler object
  // ---------------------------------------------------------------------

  class FileStorageHandler {
    /** The sorted id set m_aAttachments (a set: order is that of the TreeSet, not observable here). */
    var index: set<string>
    /** m_aCache */
    var cache: map<string, ProcAttachment>
    /** The base directory's contents. */
    var disk: Disk
    const mime: MimeSupport

    function State(): (st: Store)
      reads this
      ensures st.index == index && st.cache == cache && st.disk == disk
    {
      Store(index, cache, disk)
    }

    constructor FromStore(st: Store, mime: MimeSupport)
      ensures State() == st && this.mime == mime
    {
      index, cache, disk := st.index, st.cache, st.disk;
      this.mime := mime;
    }

    /** getAllAttachmentIDs: a copy of the index. */
    method GetAllAttachmentIDs() returns (ids: set<string>)
      ensures ids == index
    {
      ids := index;
    }

    method ContainsAttachmentOfID(id: Option<string>) returns (b: bool)
      ensures b == Contains(State(), id)
    {
      if !HasText(id) {
        return false;
      }
      b := id.value in index;
    }

    method GetAttachmentOfID(id: Option<string>, now: DateTime) returns (r: Result<Option<ProcAttachment>>)
      modifies this`cache
      ensures Outcome(r, State()) == Get(old(State()), id, now, mime)
    {
      var known := ContainsAttachmentOfID(id);
      if !known {
        return Ok(None);
      }
      var sid := id.value;
      if sid in cache {
        return Ok(Some(cache[sid]));
      }
      var read := ReadAttachment(sid, EntryOf(disk, sid), now, mime);
      if read.Err? {
        return Err(read.error);
      }
      cache := cache[sid := read.value];
      r := Ok(Some(read.value));
    }

    method PersistAttachment(a: Option<ProcAttachment>, now: DateTime, dirCreated: bool)
      returns (r: Result<ProcAttachment>)
      modifies this`index, this`disk
      ensures Outcome(r, State()) == Persist(old(State()), a, now, dirCreated, mime)
    {
      if a.None? {
        return Err(NullPointer("attachment"));
      }
      var att := a.value;
      if !dirCreated {
        return Err(IllegalState("failed to create directory"));
      }
      var path := ContentPath(att.id);
      disk := disk.(dirs := disk.dirs[att.id := Entry(Content(att), Some(MetadataOf(att, now)))]);
      index := index + {att.id};
      disk := disk.(toc := TocList(index));
      r := NewResourceBacked(Some(att.id), Some(att.title), att.mimeType, Some(now),
                             Resource(path, path, Content(att)), mime.fromFilename);
    }

    method RemoveAttachment(id: Option<string>, dirDeleted: bool) returns (r: Result<Change>)
      modifies this`index, this`disk
      ensures Outcome(r, State()) == Remove(old(State()), id, dirDeleted)
    {
      var known := ContainsAttachmentOfID(id);
      if !known {
        return Ok(Unchanged);
      }
      if !dirDeleted {
        return Err(IllegalState("failed to delete directory"));
      }
      disk := disk.(dirs := disk.dirs - {id.value});
      index := index - {id.value};
      disk := disk.(toc := TocList(index));
      r := Ok(Changed);
    }
  }

  /** The constructor, which can fail: a handler over the base directory, or the exception. */
  method OpenHandler(baseDir: Option<BaseDir>, mime: MimeSupport) returns (r: Result<FileStorageHandler>)
    ensures Open(baseDir).Err? ==> r.Err? && r.error == Open(baseDir).error
    ensures Open(baseDir).Ok? ==> r.Ok? && fresh(r.value) && r.value.State() == Open(baseDir).value
                                  && r.value.mime == mime
  {
    var st := Open(baseDir);
    if st.Err? {
      return Err(st.error);
    }
    var h := new FileStorageHandler.FromStore(st.value, mime);
    r := Ok(h);
  }
}
