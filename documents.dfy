/**
 * Values shared by orders and invoices: calendar dates, the code-list
 * constants they refer to, and the link from a document to one of its
 * attachments.
 */
module Documents {

  /** A Joda LocalDate. */
  datatype LocalDate = LocalDate(year: int, month: int, day: int)

  /** An EIncoterm constant, known by its id. */
  datatype Incoterm = Incoterm(id: string)

  /** An ECommodityScheme constant, known by its id. */
  datatype CommodityScheme = CommodityScheme(id: string)

  /** An ETaxCategoryUN5305 constant, known by its id. */
  datatype TaxCategory = TaxCategory(id: string)

  /**
   * ProcOrderAttachment / ProcInvoiceAttachment: the link's own database id
   * and the id of the attachment it points to in the attachment store.
   */
  datatype LinkedAttachment = LinkedAttachment(id: int, attachmentID: string)

  /** The attachment ids of a document's links; no links give the empty set. */
  function AttachmentIDs(links: seq<LinkedAttachment>): (r: set<string>)
    ensures forall l :: l in links ==> l.attachmentID in r
    ensures forall a :: a in r ==> exists l :: l in links && l.attachmentID == a
  {
    set l | l in links :: l.attachmentID
  }
}
