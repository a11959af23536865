# phloc-procurement core, modelled in Dafny

This project models the core of phloc-procurement, a Java library for electronic procurement documents. It covers:

- **Attachments.** The in-memory and resource-backed attachment records, with their constructor checks, getters, `equals` and Base64 content.
- **Attachment storage.** The file-based storage handler keeps an index of attachment ids and a read-through cache that is never evicted. It supports list, contains, get, persist and remove. The attachment manager adds one rule: create refuses an id that is already stored.
- **Entity-ID schemes.** The scheme registry: add, update, lookup and the four default schemes, including the GLN and DUNS digit rules.
- **Domain objects.** Parties, customers, orders, order items, invoices and invoice lines.
  - Each is a class whose setters clamp texts to their maximum lengths and report CHANGED or UNCHANGED.
  - Orders and invoices have lookups by id.
  - Line totals are the unit amount times the quantity. Document totals are the null-skipping fold of the line totals.
- **Processing states.** The `EProcState` enumeration.
- **Exchange.**
  - The simple XML serializer writes and reads customers, orders and invoices, and the write–read round trips are proved.
  - The party micro-type converter reads and writes parties as attributes.
  - From the UBL invoice serializer: the customizations, the tax keys and values, the country and sender contact, the `writeInvoice` argument checks, and the grouping of invoice lines into one tax subtotal per distinct (VAT, category, percentage) key in first-seen order.

Each Dafny module sits in one file: `common.dfy` (CHANGED/UNCHANGED, length clamping, number parsing), `xml.dfy` (the micro DOM the serializers use), `base64.dfy`, `attachments.dfy`, `storage.dfy`, `manager.dfy`, `idscheme.dfy`, `procstate.dfy`, `money.dfy`, `documents.dfy`, `party.dfy`, `customer.dfy`, `order.dfy`, `invoice.dfy`, `ubl.dfy`, `simple_serializer.dfy`, `serializer_objects.dfy` and `party_converter.dfy`.

Conventions:

- Java `null` is `Option.None`.
- A thrown exception is an `Err` carrying the exception class: `NullPointer`, `IllegalArgument` or `IllegalState`.
- A class whose fields the source updates in place is a Dafny `class`. Each setter's contract states the new field values and the CHANGED/UNCHANGED result.
- Amounts are whole numbers of minor units in one currency. A price holds its net amount, its tax amount and its VAT percentage. Gross is net plus tax.
- A VAT percentage, a `BigDecimal` in the source, is a whole number. The tax-subtotal keys compare percentages with `EqualsUtils.equals`, which the model reads as equality of values. A `BigDecimal`'s scale is not represented.

## Model

| member | source | states |
|---|---|---|
| Attachments.CheckHeader | trunk/phloc-procurement/src/main/java/com/phloc/procurement/attachment/AbstractProcAttachment.java:52-57 | An empty id or title is an illegal argument and a null upload time a null pointer, checked in that order; no error exactly when id and title have text and an upload time is given. |
| Attachments.NewInMemory | phloc-procurement/src/main/java/com/phloc/procurement/attachment/ProcInMemoryAttachment.java:48-57 | The in-memory constructor succeeds exactly when id and title have text and data is given; null data is a null pointer; the record holds exactly the arguments. |
| Attachments.NewResourceBacked | trunk/phloc-procurement/src/main/java/com/phloc/procurement/attachment/ProcResourceAttachment.java:70-81 | The resource constructor fails exactly when the header check fails, keeps id and title, keeps a given MIME type and otherwise infers it from the resource path. |
| Attachments.NewResourceBackedUntitled | trunk/phloc-procurement/src/main/java/com/phloc/procurement/attachment/ProcResourceAttachment.java:47-60 | Without a title the resource id becomes the title; the record is resource-backed. |
| Attachments.IsPersisted | phloc-procurement/src/main/java/com/phloc/procurement/attachment/ProcInMemoryAttachment.java:65-68 | isPersisted is false for in-memory attachments and true for resource-backed ones. |
| Attachments.Content | phloc-procurement/src/main/java/com/phloc/procurement/attachment/ProcInMemoryAttachment.java:59-63 | The content is the in-memory data or the resource's bytes. |
| Attachments.Size | phloc-procurement/src/main/java/com/phloc/procurement/attachment/ProcInMemoryAttachment.java:70-74 | getSize is the length of the data. |
| Attachments.Base64Encoded | phloc-procurement/src/main/java/com/phloc/procurement/attachment/ProcInMemoryAttachment.java:76-80 | getBase64Encoded decodes back to the content and has the padded Base64 length. |
| Attachments.Equals | trunk/phloc-procurement/src/main/java/com/phloc/procurement/attachment/AbstractProcAttachment.java:90-102 | Equal attachments agree on id, title, MIME type, upload time, kind and content. |
| Attachments.EqualsIsValueEquality | phloc-procurement/src/main/java/com/phloc/procurement/attachment/ProcInMemoryAttachment.java:82-91 | equals holds exactly when the two records are the same value, so byte contents are compared, not array identity. |
| Attachments.InMemoryGetters | trunk/phloc-procurement/src/main/java/com/phloc/procurement/attachment/AbstractProcAttachment.java:58-88 | The getters of a constructed in-memory attachment return exactly the constructor arguments. |
| Base64.Encode | phloc-procurement/src/main/java/com/phloc/procurement/attachment/ProcInMemoryAttachment.java:79 | The encoding of n bytes has 4 * ceil(n / 3) characters. |
| Base64.DecodeEncode | phloc-procurement/src/main/java/com/phloc/procurement/attachment/ProcInMemoryAttachment.java:76-80 | Decoding the encoding of any byte sequence gives the sequence back. |
| Base64.HalloWeltVector | trunk/phloc-procurement/src/test/java/com/phloc/procurement/attachment/ProcResourceAttachmentTest.java:48 | The Base64 encoding of "Hallo Welt!" is "SGFsbG8gV2VsdCE=". |
| Common.ChangeOf | trunk/src/main/java/com/phloc/procurement/order/ProcOrder.java:109-116 | A setter reports UNCHANGED exactly when the proposed value equals the current one. |
| Common.EnsuredLength | trunk/phloc-procurement/src/main/java/com/phloc/procurement/party/AbstractProcParty.java:170-177 | getEnsuredLength keeps null, keeps a text that fits and cuts a longer one to a prefix of exactly the maximum length. |
| Common.EnsuredLengthIdempotent | trunk/phloc-procurement/src/main/java/com/phloc/procurement/party/AbstractProcParty.java:187-194 | Clamping twice is clamping once. |
| Common.ClampedSet | trunk/phloc-procurement/src/main/java/com/phloc/procurement/party/AbstractProcParty.java:170-177 | A clamped setter stores the clamped value and reports UNCHANGED exactly when that equals the current field. |
| Common.ClampedSetRepeat | trunk/phloc-procurement/src/main/java/com/phloc/procurement/party/AbstractProcParty.java:187-194 | Repeating a clamped setter with the same argument reports UNCHANGED and stores the same value. |
| Common.FirstMatch | trunk/src/main/java/com/phloc/procurement/order/ProcOrder.java:138-145 | The search returns the first index whose element matches, or nothing when none matches. |
| Common.NonEmpty | trunk/src/main/java/com/phloc/procurement/order/ProcOrder.java:130 | An empty list is stored as null, any other list as itself. |
| Common.MapResult | trunk/src/main/java/com/phloc/procurement/exchange/SimpleProcSerializer.java:357-373 | A loop that builds one object per element succeeds exactly when every step does, and yields the step results in order; a failure is the failure of some step. |
| Common.ParseInt | trunk/src/main/java/com/phloc/procurement/exchange/SimpleProcSerializer.java:102 | parseInt yields the default for null and otherwise the default or a 32-bit value. |
| Common.ParseIntOfIntToString | trunk/src/main/java/com/phloc/procurement/exchange/SimpleProcSerializer.java:365 | parseInt of the decimal text of a 32-bit value is that value. |
| Common.ParseLong | phloc-procurement/src/main/java/com/phloc/procurement/attachment/AbstractProcAttachmentFileBasedStorageHandlerSPI.java:148-151 | parseLong yields the default for null and otherwise the default or a 64-bit value. |
| Common.ParseLongOfIntToString | phloc-procurement/src/main/java/com/phloc/procurement/attachment/AbstractProcAttachmentFileBasedStorageHandlerSPI.java:148-151 | Parsing the canonical decimal text of a 64-bit value gives back that value. |
| Common.ParseBool | trunk/src/main/java/com/phloc/procurement/exchange/SimpleProcSerializer.java:117 | parseBool yields the default for null and true exactly for "true" in any letter case. |
| Common.ParseBoolOfBoolToString | trunk/src/main/java/com/phloc/procurement/exchange/SimpleProcSerializer.java:109-117 | parseBool of Boolean.toString(b) is b. |
| Customers.Equals | src/main/java/com/phloc/procurement/party/ProcCustomer.java:106-115 | Equal customers agree on the client and the payment terms; the partner lemma below gives the converse. |
| Customers.EqualsIsValueEqualityUpToSchemeName | src/main/java/com/phloc/procurement/party/ProcCustomer.java:106-115 | equals holds exactly when the two customers are equal values once the display name of their party's scheme is blanked out. |
| Customers.ProcCustomer.constructor | src/main/java/com/phloc/procurement/party/ProcCustomer.java:49-55 | A new customer has an empty party, client 0 and no payment terms. |
| Customers.ProcCustomer.SetClient | src/main/java/com/phloc/procurement/party/ProcCustomer.java:64-74 | A negative client is an illegal argument and changes nothing; otherwise the client is stored and UNCHANGED is reported exactly when it was equal. |
| Customers.ProcCustomer.SetPaymentTerms | src/main/java/com/phloc/procurement/party/ProcCustomer.java:85-94 | An empty list is stored as null; the change flag compares old and new lists. |
| Customers.ProcCustomer.GetPaymentTermOfID | src/main/java/com/phloc/procurement/party/ProcCustomer.java:96-104 | Returns the first payment term with that id, or none. |
| Documents.AttachmentIDs | trunk/src/main/java/com/phloc/procurement/order/ProcOrder.java:235-242 | The attachment ids are exactly the ids of the linked attachments. |
| IdSchemes.IsValid | phloc-procurement/src/main/java/com/phloc/procurement/idscheme/EntityIDScheme.java:86-90 | A null value is never valid; a digit rule accepts exactly texts of its length made of digits. |
| IdSchemes.NewScheme | phloc-procurement/src/main/java/com/phloc/procurement/idscheme/EntityIDScheme.java:47-64 | An empty id or short name is an illegal argument, a null display name or validator a null pointer; otherwise the scheme is well formed. |
| IdSchemes.CopyWithDifferentValidator | phloc-procurement/src/main/java/com/phloc/procurement/idscheme/EntityIDScheme.java:92-96 | The copy keeps id and short name and takes the new validator; a null validator is a null pointer. |
| IdSchemes.Equals | phloc-procurement/src/main/java/com/phloc/procurement/idscheme/EntityIDScheme.java:98-107 | Schemes are equal exactly when they agree on everything but the display name. |
| IdSchemes.EqualsIgnoresDisplayName | phloc-procurement/src/main/java/com/phloc/procurement/idscheme/EntityIDScheme.java:106 | Changing the display name keeps a scheme equal to itself. |
| IdSchemes.GlnAndDunsDigitRules | trunk/src/main/java/com/phloc/procurement/idscheme/EntityIDSchemeManager.java:77-94 | GLN accepts exactly 13 digits and DUNS exactly 9 digits. |
| IdSchemes.GlnAndDunsExamples | trunk/src/test/java/com/phloc/procurement/idscheme/EntityIDSchemeManagerTest.java:59-78 | The GLN and DUNS test values are accepted or rejected as the test expects. |
| IdSchemes.Add | trunk/src/main/java/com/phloc/procurement/idscheme/EntityIDSchemeManager.java:115-132 | Adding null is a null pointer, adding a registered id an illegal argument; otherwise exactly that entry is added. |
| IdSchemes.Update | trunk/src/main/java/com/phloc/procurement/idscheme/EntityIDSchemeManager.java:134-151 | Updating null is a null pointer, an unknown id an illegal argument; otherwise only that entry is replaced. |
| IdSchemes.Lookup | trunk/src/main/java/com/phloc/procurement/idscheme/EntityIDSchemeManager.java:153-165 | Lookup finds a scheme exactly when the id is registered, and returns the registered one. |
| IdSchemes.LookupAfterAdd | trunk/src/main/java/com/phloc/procurement/idscheme/EntityIDSchemeManager.java:123-126 | After a successful add the new id finds the added scheme and every other id finds what it found before. |
| IdSchemes.LookupOfRegistered | trunk/src/test/java/com/phloc/procurement/idscheme/EntityIDSchemeManagerTest.java:46-51 | Every registered scheme is found under its own id. |
| IdSchemes.Defaults | trunk/src/main/java/com/phloc/procurement/idscheme/EntityIDSchemeManager.java:101-108 | The default registry holds ids "0" to "3", each under its own id. |
| IdSchemes.DefaultsByAdding | trunk/src/main/java/com/phloc/procurement/idscheme/EntityIDSchemeManager.java:101-108 | The defaults are what adding GLN, VATIN, DUNS and IBAN in that order to an empty registry gives. |
| IdSchemes.EntityIDSchemeManager.constructor | trunk/src/main/java/com/phloc/procurement/idscheme/EntityIDSchemeManager.java:99-108 | A new manager holds the four default schemes. |
| IdSchemes.EntityIDSchemeManager.AddIDScheme | trunk/src/main/java/com/phloc/procurement/idscheme/EntityIDSchemeManager.java:115-132 | The registry changes as Add says, and not at all on an error. |
| IdSchemes.EntityIDSchemeManager.UpdateIDScheme | trunk/src/main/java/com/phloc/procurement/idscheme/EntityIDSchemeManager.java:134-151 | The registry changes as Update says, and not at all on an error. |
| IdSchemes.EntityIDSchemeManager.GetIDSchemeFromID | trunk/src/main/java/com/phloc/procurement/idscheme/EntityIDSchemeManager.java:153-165 | Returns the lookup of the id in the registry. |
| IdSchemes.EntityIDSchemeManager.GetAllRegisteredIDSchemes | trunk/src/main/java/com/phloc/procurement/idscheme/EntityIDSchemeManager.java:167-180 | Returns every registered scheme exactly once. |
| Invoices.InvoiceTotalIsSumOfContributions | trunk/phloc-procurement/src/main/java/com/phloc/procurement/invoice/ProcInvoice.java:218-225 | An invoice total is null exactly when no line contributes, and otherwise the sum of the contributing line totals. |
| Invoices.InvoiceGrossIsNetPlusTax | trunk/phloc-procurement/src/main/java/com/phloc/procurement/invoice/ProcInvoice.java:228-245 | The gross and tax totals are null exactly when the net total is, and gross = net + tax. |
| Invoices.ProcInvoice.constructor | phloc-procurement/src/main/java/com/phloc/procurement/domain/AbstractProcDeletableObject.java:34-37 | A new invoice has id 0, is not deleted and has no other data. |
| Invoices.ProcInvoice.SetID | src/main/java/com/phloc/procurement/domain/AbstractProcObject.java:55-58 | setID stores the id. |
| Invoices.ProcInvoice.SetDeleted | phloc-procurement/src/main/java/com/phloc/procurement/domain/AbstractProcDeletableObject.java:46-52 | setDeleted stores the flag and reports UNCHANGED exactly when it was equal. |
| Invoices.ProcInvoice.SetIssueDate | trunk/phloc-procurement/src/main/java/com/phloc/procurement/invoice/ProcInvoice.java:94-100 | Stores the date and reports UNCHANGED exactly when it was equal. |
| Invoices.ProcInvoice.SetInvoiceNumber | trunk/phloc-procurement/src/main/java/com/phloc/procurement/invoice/ProcInvoice.java:111-118 | Stores the clamped number and reports UNCHANGED exactly when the clamped value was already stored. |
| Invoices.ProcInvoice.SetInvoiceNote | trunk/phloc-procurement/src/main/java/com/phloc/procurement/invoice/ProcInvoice.java:128-135 | Stores the clamped note and reports UNCHANGED exactly when the clamped value was already stored. |
| Invoices.ProcInvoice.SetInvoiceLines | trunk/phloc-procurement/src/main/java/com/phloc/procurement/invoice/ProcInvoice.java:147-154 | An empty list is stored as null; the change flag compares old and new lists. |
| Invoices.ProcInvoice.SetAttachments | trunk/phloc-procurement/src/main/java/com/phloc/procurement/invoice/ProcInvoice.java:176-183 | An empty list is stored as null; the change flag compares old and new lists. |
| Invoices.ProcInvoice.GetInvoiceLineOfID | trunk/phloc-procurement/src/main/java/com/phloc/procurement/invoice/ProcInvoice.java:157-164 | Returns the first line with that id, or none. |
| Invoices.ProcInvoice.GetAllAttachmentIDs | trunk/phloc-procurement/src/main/java/com/phloc/procurement/invoice/ProcInvoice.java:187-194 | Returns the set of the attachment ids, empty without attachments. |
| Invoices.ProcInvoice.GetAttachmentOfID | trunk/phloc-procurement/src/main/java/com/phloc/procurement/invoice/ProcInvoice.java:197-204 | Returns the first attachment link with that id, or none. |
| Invoices.ProcInvoice.GetTotal | trunk/phloc-procurement/src/main/java/com/phloc/procurement/invoice/ProcInvoice.java:218-245 | Returns the invoice total of the requested kind over the current lines. |
| Invoices.ProcInvoiceLine.OwnerID | phloc-procurement/src/main/java/com/phloc/procurement/invoice/ProcInvoiceLine.java:315-318 | The owner id is ILLEGAL_UINT without an owner and the owner's id otherwise. |
| Invoices.ProcInvoiceLine.constructor | phloc-procurement/src/main/java/com/phloc/procurement/invoice/ProcInvoiceLine.java:83-84 | A new line has no owner and no data. |
| Invoices.ProcInvoiceLine.SetOwner | phloc-procurement/src/main/java/com/phloc/procurement/invoice/ProcInvoiceLine.java:100-105 | A null owner is a null pointer and changes nothing; otherwise the owner is stored. |
| Invoices.ProcInvoiceLine.SetID | src/main/java/com/phloc/procurement/domain/AbstractProcObject.java:55-58 | setID stores the id. |
| Invoices.ProcInvoiceLine.SetOrderItemID | phloc-procurement/src/main/java/com/phloc/procurement/invoice/ProcInvoiceLine.java:115-122 | Stores the clamped value; UNCHANGED exactly when it was already stored. |
| Invoices.ProcInvoiceLine.SetLineID | phloc-procurement/src/main/java/com/phloc/procurement/invoice/ProcInvoiceLine.java:132-139 | Stores the clamped value; UNCHANGED exactly when it was already stored. |
| Invoices.ProcInvoiceLine.SetCommodityScheme | phloc-procurement/src/main/java/com/phloc/procurement/invoice/ProcInvoiceLine.java:156-162 | Stores the scheme; UNCHANGED exactly when it was equal. |
| Invoices.ProcInvoiceLine.SetCommodityID | phloc-procurement/src/main/java/com/phloc/procurement/invoice/ProcInvoiceLine.java:172-179 | Stores the clamped value; UNCHANGED exactly when it was already stored. |
| Invoices.ProcInvoiceLine.SetDescription | phloc-procurement/src/main/java/com/phloc/procurement/invoice/ProcInvoiceLine.java:189-196 | Stores the clamped value; UNCHANGED exactly when it was already stored. |
| Invoices.ProcInvoiceLine.SetQuantity | phloc-procurement/src/main/java/com/phloc/procurement/invoice/ProcInvoiceLine.java:205-211 | Stores the quantity; UNCHANGED exactly when it was equal. |
| Invoices.ProcInvoiceLine.SetUnitPriceCompared | phloc-procurement/src/main/java/com/phloc/procurement/invoice/ProcInvoiceLine.java:223-229 | Stores the price; UNCHANGED exactly when it was equal. |
| Invoices.ProcInvoiceLine.SetUnitPrice | phloc-procurement/src/main/java/com/phloc/procurement/invoice/ProcInvoiceLine.java:232-239 | A null price is a null pointer and changes nothing; otherwise the price is stored and CHANGED is always reported. |
| Invoices.ProcInvoiceLine.SetTaxCategory | phloc-procurement/src/main/java/com/phloc/procurement/invoice/ProcInvoiceLine.java:256-262 | Stores the category; UNCHANGED exactly when it was equal. |
| Invoices.ProcInvoiceLine.SetRemark | phloc-procurement/src/main/java/com/phloc/procurement/invoice/ProcInvoiceLine.java:272-279 | Stores the clamped value; UNCHANGED exactly when it was already stored. |
| Invoices.ProcInvoiceLine.Total | phloc-procurement/src/main/java/com/phloc/procurement/invoice/ProcInvoiceLine.java:282-290 | A line total is null exactly when there is no unit price or the quantity is negative, and otherwise the unit amount times the quantity. |
| AttachmentManager.Create | phloc-procurement/src/main/java/com/phloc/procurement/attachment/ProcAttachmentManager.java:72-93 | A null attachment is a null pointer; an id already stored is an illegal argument that changes nothing; otherwise the outcome is exactly the handler's persist. |
| AttachmentManager.CreateTwiceRefused | phloc-procurement/src/main/java/com/phloc/procurement/attachment/ProcAttachmentManager.java:81-83 | Creating the same attachment twice succeeds once and is refused the second time. |
| AttachmentManager.ProcAttachmentManager.Over | phloc-procurement/src/main/java/com/phloc/procurement/attachment/ProcAttachmentManager.java:42-47 | The manager wraps the given handler. |
| AttachmentManager.ProcAttachmentManager.GetAttachmentOfID | phloc-procurement/src/main/java/com/phloc/procurement/attachment/ProcAttachmentManager.java:50-61 | Passes straight through to the handler's get. |
| AttachmentManager.ProcAttachmentManager.CreateAttachment | phloc-procurement/src/main/java/com/phloc/procurement/attachment/ProcAttachmentManager.java:72-93 | Result and new handler state are those of Create. |
| AttachmentManager.ProcAttachmentManager.RemoveAttachment | phloc-procurement/src/main/java/com/phloc/procurement/attachment/ProcAttachmentManager.java:103-114 | Passes straight through to the handler's remove. |
| AttachmentManager.ProcAttachmentManager.GetAllAttachmentIDs | phloc-procurement/src/main/java/com/phloc/procurement/attachment/ProcAttachmentManager.java:121-132 | Returns the handler's index. |
| AttachmentManager.NewManager | phloc-procurement/src/main/java/com/phloc/procurement/attachment/ProcAttachmentManager.java:42-47 | A null handler is a null pointer; otherwise a fresh manager over that handler. |
| AttachmentStorage.IndexOfToc | phloc-procurement/src/main/java/com/phloc/procurement/attachment/AbstractProcAttachmentFileBasedStorageHandlerSPI.java:103-105 | The index read at start is the id list of the table of contents, or empty when there is none. |
| AttachmentStorage.Open | phloc-procurement/src/main/java/com/phloc/procurement/attachment/AbstractProcAttachmentFileBasedStorageHandlerSPI.java:93-106 | A null base directory is a null pointer; a missing or non-directory base fails; otherwise the index is loaded and the cache is empty. |
| AttachmentStorage.Contains | phloc-procurement/src/main/java/com/phloc/procurement/attachment/AbstractProcAttachmentFileBasedStorageHandlerSPI.java:123-138 | A null or empty id is never contained; otherwise containment is index membership. |
| AttachmentStorage.MetadataOf | phloc-procurement/src/main/java/com/phloc/procurement/attachment/AbstractProcAttachmentFileBasedStorageHandlerSPI.java:222-239 | The metadata element carries id, upload time, title and the MIME type when there is one. |
| AttachmentStorage.UploadTime | phloc-procurement/src/main/java/com/phloc/procurement/attachment/AbstractProcAttachmentFileBasedStorageHandlerSPI.java:148-151 | A missing upload time defaults to now; otherwise it is parsed as a long. |
| AttachmentStorage.MetadataMime | phloc-procurement/src/main/java/com/phloc/procurement/attachment/AbstractProcAttachmentFileBasedStorageHandlerSPI.java:153-156 | No MIME element gives no MIME type. |
| AttachmentStorage.ReadAttachment | phloc-procurement/src/main/java/com/phloc/procurement/attachment/AbstractProcAttachmentFileBasedStorageHandlerSPI.java:141-162 | Missing or unreadable metadata is an illegal state; a read record has the requested id and is persisted. |
| AttachmentStorage.Get | phloc-procurement/src/main/java/com/phloc/procurement/attachment/AbstractProcAttachmentFileBasedStorageHandlerSPI.java:165-187 | An id not contained gives null and changes nothing; a cached id gives the cached record; on a miss the result is exactly ReadAttachment of the record on disk, an error leaves the store alone and a success puts that attachment in the cache; index and disk never change. |
| AttachmentStorage.Persist | phloc-procurement/src/main/java/com/phloc/procurement/attachment/AbstractProcAttachmentFileBasedStorageHandlerSPI.java:242-281 | A null attachment is a null pointer; a directory that cannot be created fails and changes nothing; otherwise the id joins the index and the record keeps id, title and MIME type. |
| AttachmentStorage.Remove | phloc-procurement/src/main/java/com/phloc/procurement/attachment/AbstractProcAttachmentFileBasedStorageHandlerSPI.java:284-313 | An id not contained gives UNCHANGED and changes nothing; a known id leaves the index (CHANGED) but stays in the cache. |
| AttachmentStorage.GetAgainHitsCache | phloc-procurement/src/main/java/com/phloc/procurement/attachment/AbstractProcAttachmentFileBasedStorageHandlerSPI.java:174-181 | A second get of the same id returns the same record from the cache. |
| AttachmentStorage.ReadBackMetadata | phloc-procurement/src/main/java/com/phloc/procurement/attachment/AbstractProcAttachmentFileBasedStorageHandlerSPI.java:141-162 | Metadata written by persist reads back as the persisted record. |
| AttachmentStorage.GetAfterPersist | phloc-procurement/src/main/java/com/phloc/procurement/attachment/AbstractProcAttachmentFileBasedStorageHandlerSPI.java:265-275 | A get after a persist returns the persisted record. |
| AttachmentStorage.StaleCacheAfterRemove | phloc-procurement/src/main/java/com/phloc/procurement/attachment/AbstractProcAttachmentFileBasedStorageHandlerSPI.java:301-303 | After remove the id is no longer contained but the cache still holds the record. |
| AttachmentStorage.ReopenRestoresIndex | phloc-procurement/src/main/java/com/phloc/procurement/attachment/AbstractProcAttachmentFileBasedStorageHandlerSPI.java:264-266 | Re-opening the directory after persist or remove gives the same index. |
| AttachmentStorage.PersistRemoveKeepIndexOnDisk | phloc-procurement/src/main/java/com/phloc/procurement/attachment/AbstractProcAttachmentFileBasedStorageHandlerSPI.java:254-266 | Persist and remove keep the in-memory index equal to the table of contents on disk. |
| AttachmentStorage.FileStorageHandler.GetAllAttachmentIDs | phloc-procurement/src/main/java/com/phloc/procurement/attachment/AbstractProcAttachmentFileBasedStorageHandlerSPI.java:110-121 | Returns a copy equal to the index. |
| AttachmentStorage.FileStorageHandler.ContainsAttachmentOfID | phloc-procurement/src/main/java/com/phloc/procurement/attachment/AbstractProcAttachmentFileBasedStorageHandlerSPI.java:123-138 | Returns Contains on the current state. |
| AttachmentStorage.FileStorageHandler.GetAttachmentOfID | phloc-procurement/src/main/java/com/phloc/procurement/attachment/AbstractProcAttachmentFileBasedStorageHandlerSPI.java:165-187 | Result and new state are those of Get. |
| AttachmentStorage.FileStorageHandler.PersistAttachment | phloc-procurement/src/main/java/com/phloc/procurement/attachment/AbstractProcAttachmentFileBasedStorageHandlerSPI.java:242-281 | Result and new state are those of Persist. |
| AttachmentStorage.FileStorageHandler.RemoveAttachment | phloc-procurement/src/main/java/com/phloc/procurement/attachment/AbstractProcAttachmentFileBasedStorageHandlerSPI.java:284-313 | Result and new state are those of Remove. |
| AttachmentStorage.OpenHandler | phloc-procurement/src/main/java/com/phloc/procurement/attachment/AbstractProcAttachmentFileBasedStorageHandlerSPI.java:93-106 | Fails as Open does; otherwise a fresh handler whose state is the opened store. |
| Money.LineTotal | phloc-procurement/src/main/java/com/phloc/procurement/invoice/ProcInvoiceLine.java:282-290 | A line total is null exactly when there is no unit price or the quantity is negative. |
| Money.LineTotalScales | tags/phloc-procurement-1.0.5/src/main/java/com/phloc/procurement/order/ProcOrderItem.java:212-233 | The total is the unit amount times the quantity; 0 for quantity 0 and the unit amount for quantity 1. |
| Money.LineGrossIsNetPlusTax | phloc-procurement/src/main/java/com/phloc/procurement/invoice/ProcInvoiceLine.java:282-312 | The three line totals are null together, and gross = net + tax. |
| Money.AddOrCreate | trunk/src/main/java/com/phloc/procurement/order/ProcOrder.java:254-262 | _addOrCreate is null exactly when both are null; a null addend leaves the base unchanged. |
| Money.SumOptIsSumOfPresent | trunk/src/main/java/com/phloc/procurement/order/ProcOrder.java:264-272 | The fold is null exactly when nothing contributes and otherwise the sum of the non-null values. |
| Money.SumOptNoneIffAllNone | trunk/src/main/java/com/phloc/procurement/order/ProcOrder.java:264-272 | The fold is null exactly when every element is null. |
| Money.SumOptPointwise | trunk/src/main/java/com/phloc/procurement/order/ProcOrder.java:264-292 | Folding pointwise sums gives the sum of the folds, with the same null cases. |
| Orders.OrderTotalIsSumOfContributions | trunk/src/main/java/com/phloc/procurement/order/ProcOrder.java:264-272 | An order total is null exactly when no item contributes, and otherwise the sum of the contributing item totals. |
| Orders.OrderGrossIsNetPlusTax | trunk/src/main/java/com/phloc/procurement/order/ProcOrder.java:274-292 | The gross and tax totals are null exactly when the net total is, and gross = net + tax. |
| Orders.ProcOrder.constructor | trunk/src/main/java/com/phloc/procurement/order/ProcOrder.java:97-98 | A new order has id 0, is not deleted and has no other data. |
| Orders.ProcOrder.SetID | src/main/java/com/phloc/procurement/domain/AbstractProcObject.java:55-58 | setID stores the id. |
| Orders.ProcOrder.SetDeleted | phloc-procurement/src/main/java/com/phloc/procurement/domain/AbstractProcDeletableObject.java:46-52 | setDeleted stores the flag and reports UNCHANGED exactly when it was equal. |
| Orders.ProcOrder.SetOrderNumber | trunk/src/main/java/com/phloc/procurement/order/ProcOrder.java:109-116 | Stores the clamped number; UNCHANGED exactly when it was already stored. |
| Orders.ProcOrder.SetOrderItems | trunk/src/main/java/com/phloc/procurement/order/ProcOrder.java:128-135 | An empty list is stored as null; the change flag compares old and new lists. |
| Orders.ProcOrder.SetIssueDate | trunk/src/main/java/com/phloc/procurement/order/ProcOrder.java:156-162 | Stores the date; UNCHANGED exactly when it was equal. |
| Orders.ProcOrder.SetDeliveryStartDate | trunk/src/main/java/com/phloc/procurement/order/ProcOrder.java:173-179 | Stores the date; UNCHANGED exactly when it was equal. |
| Orders.ProcOrder.SetDeliveryEndDate | trunk/src/main/java/com/phloc/procurement/order/ProcOrder.java:190-196 | Stores the date; UNCHANGED exactly when it was equal. |
| Orders.ProcOrder.SetIncoterm | trunk/src/main/java/com/phloc/procurement/order/ProcOrder.java:206-212 | Stores the incoterm; UNCHANGED exactly when it was equal. |
| Orders.ProcOrder.SetAttachments | trunk/src/main/java/com/phloc/procurement/order/ProcOrder.java:224-231 | An empty list is stored as null; the change flag compares old and new lists. |
| Orders.ProcOrder.GetOrderItemOfID | trunk/src/main/java/com/phloc/procurement/order/ProcOrder.java:138-145 | Returns the first item with that id, or none. |
| Orders.ProcOrder.GetAllAttachmentIDs | trunk/src/main/java/com/phloc/procurement/order/ProcOrder.java:235-242 | Returns the set of the attachment ids, empty without attachments. |
| Orders.ProcOrder.GetAttachmentOfID | trunk/src/main/java/com/phloc/procurement/order/ProcOrder.java:245-252 | Returns the first attachment link with that id, or none. |
| Orders.ProcOrder.GetTotal | trunk/src/main/java/com/phloc/procurement/order/ProcOrder.java:264-292 | Returns the order total of the requested kind over the current items. |
| Orders.ProcOrderItem.OwnerID | tags/phloc-procurement-1.0.5/src/main/java/com/phloc/procurement/order/ProcOrderItem.java:236-239 | The owner id is ILLEGAL_UINT without an owner and the owner's id otherwise. |
| Orders.ProcOrderItem.constructor | tags/phloc-procurement-1.0.5/src/main/java/com/phloc/procurement/order/ProcOrderItem.java:70-71 | A new item has no owner and no data. |
| Orders.ProcOrderItem.SetOwner | tags/phloc-procurement-1.0.5/src/main/java/com/phloc/procurement/order/ProcOrderItem.java:87-92 | A null owner is a null pointer and changes nothing; otherwise the owner is stored. |
| Orders.ProcOrderItem.SetID | src/main/java/com/phloc/procurement/domain/AbstractProcObject.java:55-58 | setID stores the id. |
| Orders.ProcOrderItem.SetDescription | tags/phloc-procurement-1.0.5/src/main/java/com/phloc/procurement/order/ProcOrderItem.java:102-109 | Stores the clamped value; UNCHANGED exactly when it was already stored. |
| Orders.ProcOrderItem.SetNote | tags/phloc-procurement-1.0.5/src/main/java/com/phloc/procurement/order/ProcOrderItem.java:119-126 | Stores the clamped value; UNCHANGED exactly when it was already stored. |
| Orders.ProcOrderItem.SetQuantity | tags/phloc-procurement-1.0.5/src/main/java/com/phloc/procurement/order/ProcOrderItem.java:135-141 | Stores the quantity; UNCHANGED exactly when it was equal. |
| Orders.ProcOrderItem.SetUnitPriceCompared | tags/phloc-procurement-1.0.5/src/main/java/com/phloc/procurement/order/ProcOrderItem.java:153-159 | Stores the price; UNCHANGED exactly when it was equal. |
| Orders.ProcOrderItem.SetUnitPrice | tags/phloc-procurement-1.0.5/src/main/java/com/phloc/procurement/order/ProcOrderItem.java:162-169 | A null price is a null pointer and changes nothing; otherwise the price is stored and CHANGED is always reported. |
| Orders.ProcOrderItem.SetCommodityScheme | tags/phloc-procurement-1.0.5/src/main/java/com/phloc/procurement/order/ProcOrderItem.java:186-192 | Stores the scheme; UNCHANGED exactly when it was equal. |
| Orders.ProcOrderItem.SetCommodityID | tags/phloc-procurement-1.0.5/src/main/java/com/phloc/procurement/order/ProcOrderItem.java:202-209 | Stores the value clamped to LENGTH_NOTE, which equals LENGTH_COMMODITY_ID; UNCHANGED exactly when it was already stored. |
| Orders.ProcOrderItem.Total | tags/phloc-procurement-1.0.5/src/main/java/com/phloc/procurement/order/ProcOrderItem.java:212-217 | An item total is null exactly when there is no unit price or the quantity is negative, and otherwise the unit amount times the quantity. |
| Parties.EndpointSetAsWritten | trunk/phloc-procurement/src/main/java/com/phloc/procurement/party/AbstractProcParty.java:153-160 | setEndpointID as written: it compares the clamped value but stores the raw input. |
| Parties.EndpointSetAsWrittenStoresTooLong | trunk/phloc-procurement/src/main/java/com/phloc/procurement/party/AbstractProcParty.java:153-160 | As written, an endpoint id longer than the limit is stored in full. |
| Parties.EndpointSetAsWrittenExample | trunk/phloc-procurement/src/main/java/com/phloc/procurement/party/AbstractProcParty.java:155-159 | A concrete text one character over the limit is stored unclamped. |
| Parties.SchemeID | trunk/phloc-procurement/src/main/java/com/phloc/procurement/party/AbstractProcParty.java:114-117 | getEntityIDSchemeID is null exactly when there is no scheme, and otherwise the scheme's id. |
| Parties.CountryCode | trunk/phloc-procurement/src/main/java/com/phloc/procurement/party/AbstractProcParty.java:275-278 | getCountryCountry is null exactly when there is no country, and otherwise its country code. |
| Parties.Equals | trunk/phloc-procurement/src/main/java/com/phloc/procurement/party/AbstractProcParty.java:376-398 | Equal parties agree on id, deleted flag and every field. |
| Parties.EqualsIsValueEqualityUpToSchemeName | trunk/phloc-procurement/src/main/java/com/phloc/procurement/party/AbstractProcParty.java:376-398 | equals holds exactly when the parties are equal values up to the display name of their schemes. |
| Parties.EqualsReflexive | trunk/phloc-procurement/src/main/java/com/phloc/procurement/party/AbstractProcParty.java:376-398 | Every party equals itself. |
| Parties.ProcParty.constructor | phloc-procurement/src/main/java/com/phloc/procurement/domain/AbstractProcDeletableObject.java:34-37 | A new party has id 0, is not deleted and has no other data. |
| Parties.ProcParty.SetID | src/main/java/com/phloc/procurement/domain/AbstractProcObject.java:55-58 | setID stores the id and changes nothing else. |
| Parties.ProcParty.SetDeleted | phloc-procurement/src/main/java/com/phloc/procurement/domain/AbstractProcDeletableObject.java:46-52 | setDeleted stores the flag, changes nothing else and reports UNCHANGED exactly when it was equal. |
| Parties.ProcParty.SetEntityIDScheme | trunk/phloc-procurement/src/main/java/com/phloc/procurement/party/AbstractProcParty.java:120-126 | UNCHANGED exactly when the stored scheme equals the argument by EntityIDScheme.equals (display name ignored), and then the stored scheme stays; otherwise the argument is stored; nothing else changes. |
| Parties.SchemeAfterSet | trunk/phloc-procurement/src/main/java/com/phloc/procurement/party/AbstractProcParty.java:120-126 | The scheme left in the field agrees with the argument up to the display name; it is the argument whenever the field held none. |
| Parties.SchemeAfterSetKeepsDisplayName | phloc-procurement/src/main/java/com/phloc/procurement/idscheme/EntityIDScheme.java:99-107 | Setting a scheme that differs from the stored one only in its display name keeps the stored one. |
| Parties.ProcParty.SetEntityID | trunk/phloc-procurement/src/main/java/com/phloc/procurement/party/AbstractProcParty.java:136-143 | Stores the clamped value and nothing else; UNCHANGED exactly when it was already stored. |
| Parties.ProcParty.SetEndpointID | trunk/phloc-procurement/src/main/java/com/phloc/procurement/party/AbstractProcParty.java:153-160 | Stores the clamped value and nothing else; UNCHANGED exactly when it was already stored. |
| Parties.ProcParty.SetName | trunk/phloc-procurement/src/main/java/com/phloc/procurement/party/AbstractProcParty.java:170-177 | Stores the clamped value and nothing else; UNCHANGED exactly when it was already stored. |
| Parties.ProcParty.SetStreet | trunk/phloc-procurement/src/main/java/com/phloc/procurement/party/AbstractProcParty.java:187-194 | Stores the clamped value and nothing else; UNCHANGED exactly when it was already stored. |
| Parties.ProcParty.SetBuildingNumber | trunk/phloc-procurement/src/main/java/com/phloc/procurement/party/AbstractProcParty.java:204-211 | Stores the clamped value and nothing else; UNCHANGED exactly when it was already stored. |
| Parties.ProcParty.SetPostbox | trunk/phloc-procurement/src/main/java/com/phloc/procurement/party/AbstractProcParty.java:221-228 | Stores the clamped value and nothing else; UNCHANGED exactly when it was already stored. |
| Parties.ProcParty.SetZipCode | trunk/phloc-procurement/src/main/java/com/phloc/procurement/party/AbstractProcParty.java:238-245 | Stores the clamped value and nothing else; UNCHANGED exactly when it was already stored. |
| Parties.ProcParty.SetCity | trunk/phloc-procurement/src/main/java/com/phloc/procurement/party/AbstractProcParty.java:255-262 | Stores the clamped value and nothing else; UNCHANGED exactly when it was already stored. |
| Parties.ProcParty.SetCountry | trunk/phloc-procurement/src/main/java/com/phloc/procurement/party/AbstractProcParty.java:281-287 | Stores the country and nothing else; UNCHANGED exactly when it was equal. |
| Parties.ProcParty.SetRegistrationName | trunk/phloc-procurement/src/main/java/com/phloc/procurement/party/AbstractProcParty.java:297-304 | Stores the clamped value and nothing else; UNCHANGED exactly when it was already stored. |
| Parties.ProcParty.SetCompanyRegistrationNumber | trunk/phloc-procurement/src/main/java/com/phloc/procurement/party/AbstractProcParty.java:314-322 | Stores the clamped value and nothing else; UNCHANGED exactly when it was already stored. |
| Parties.ProcParty.SetVATIN | trunk/phloc-procurement/src/main/java/com/phloc/procurement/party/AbstractProcParty.java:332-339 | Stores the clamped value and nothing else; UNCHANGED exactly when it was already stored. |
| Parties.ProcParty.SetBIC | trunk/phloc-procurement/src/main/java/com/phloc/procurement/party/AbstractProcParty.java:349-356 | Stores the clamped value and nothing else; UNCHANGED exactly when it was already stored. |
| Parties.ProcParty.SetIBAN | trunk/phloc-procurement/src/main/java/com/phloc/procurement/party/AbstractProcParty.java:366-373 | Stores the clamped value and nothing else; UNCHANGED exactly when it was already stored. |
| PartyConverter.TextWrite | tags/phloc-procurement-1.0.5/src/main/java/com/phloc/procurement/party/AbstractProcPartyMicroTypeConverter.java:43-44 | A text attribute is written exactly when the value has text. |
| PartyConverter.LeadingWrites | tags/phloc-procurement-1.0.5/src/main/java/com/phloc/procurement/party/AbstractProcPartyMicroTypeConverter.java:39-68 | The first sixteen attribute writes, in source order. |
| PartyConverter.PartyWritesAsWritten | tags/phloc-procurement-1.0.5/src/main/java/com/phloc/procurement/party/AbstractProcPartyMicroTypeConverter.java:39-70 | As written, the IBAN write is guarded by the VATIN having text. |
| PartyConverter.PartyWrites | tags/phloc-procurement-1.0.5/src/main/java/com/phloc/procurement/party/AbstractProcPartyMicroTypeConverter.java:39-70 | The corrected writes guard the IBAN by the IBAN itself. |
| PartyConverter.WithPartyAttributesAsWritten | tags/phloc-procurement-1.0.5/src/main/java/com/phloc/procurement/party/AbstractProcPartyMicroTypeConverter.java:36-71 | Writing the attributes as written touches only the party attributes. |
| PartyConverter.WithPartyAttributes | tags/phloc-procurement-1.0.5/src/main/java/com/phloc/procurement/party/AbstractProcPartyMicroTypeConverter.java:36-71 | Writing the attributes touches only the party attributes and keeps name, children and text. |
| PartyConverter.WriteLeadingAttributes | tags/phloc-procurement-1.0.5/src/main/java/com/phloc/procurement/party/AbstractProcPartyMicroTypeConverter.java:39-52 | The loop performs the leading writes on the element in order. |
| PartyConverter.ConvertToMicroElementPartial | tags/phloc-procurement-1.0.5/src/main/java/com/phloc/procurement/party/AbstractProcPartyMicroTypeConverter.java:36-71 | Uses the corrected IBAN guard (see the IBAN row under Findings): the element gets exactly the attributes of PartyWrites, the IBAN guarded by the IBAN itself. The source as written is PartyWritesAsWritten. |
| PartyConverter.PartyOfAttributes | tags/phloc-procurement-1.0.5/src/main/java/com/phloc/procurement/party/AbstractProcPartyMicroTypeConverter.java:77-95 | Uses the corrected setEndpointID (see the endpoint row under Findings): a missing id reads as ILLEGAL_UINT, a missing deleted flag as the default; the scheme is found only when registered; a missing IBAN reads as null; every text, the endpoint id included, is clamped. As written the endpoint id is stored unclamped (EndpointSetAsWritten). |
| PartyConverter.ReadLeadingAttributes | tags/phloc-procurement-1.0.5/src/main/java/com/phloc/procurement/party/AbstractProcPartyMicroTypeConverter.java:77-86 | The loop sets the leading fields from the attributes. |
| PartyConverter.ConvertToNativePartial | tags/phloc-procurement-1.0.5/src/main/java/com/phloc/procurement/party/AbstractProcPartyMicroTypeConverter.java:74-96 | Through the corrected setEndpointID (endpoint row under Findings): the party's new value is the one read from the attributes, except that a scheme equal to the stored one by EntityIDScheme.equals leaves the stored one; the result equals the read value by the party's equals. |
| PartyConverter.WrittenIdentity | tags/phloc-procurement-1.0.5/src/main/java/com/phloc/procurement/party/AbstractProcPartyMicroTypeConverter.java:39-42 | The written element carries the id, the deleted flag and the scheme id. |
| PartyConverter.WrittenNames | tags/phloc-procurement-1.0.5/src/main/java/com/phloc/procurement/party/AbstractProcPartyMicroTypeConverter.java:43-48 | The written element carries entity id, endpoint id and name. |
| PartyConverter.WrittenAddress | tags/phloc-procurement-1.0.5/src/main/java/com/phloc/procurement/party/AbstractProcPartyMicroTypeConverter.java:49-60 | The written element carries the address fields and the country. |
| PartyConverter.WrittenRegistration | tags/phloc-procurement-1.0.5/src/main/java/com/phloc/procurement/party/AbstractProcPartyMicroTypeConverter.java:61-70 | The written element carries the registration fields, VATIN, BIC and IBAN. |
| PartyConverter.ReadOfWritten | tags/phloc-procurement-1.0.5/src/main/java/com/phloc/procurement/party/AbstractProcPartyMicroTypeConverter.java:77-95 | Reading the attributes of a written party gives the party back. |
| PartyConverter.IbanAsWritten | tags/phloc-procurement-1.0.5/src/main/java/com/phloc/procurement/party/AbstractProcPartyMicroTypeConverter.java:69-70 | As written, a party without VATIN reads back without its IBAN. |
| PartyConverter.IbanLostAsWrittenExample | tags/phloc-procurement-1.0.5/src/main/java/com/phloc/procurement/party/AbstractProcPartyMicroTypeConverter.java:69-70 | A party with IBAN "x" and no VATIN loses its IBAN in the round trip. |
| ProcStates.DisplayName | trunk/phloc-procurement/src/main/java/com/phloc/procurement/domain/EProcState.java:39-52 | Every state but _UNDEFINED has a display name. |
| ProcStates.DisplayText | trunk/phloc-procurement/src/main/java/com/phloc/procurement/domain/EProcState.java:75-80 | getDisplayText fails exactly for _UNDEFINED and otherwise looks up the state's name in the locale. |
| ProcStates.FindByID | trunk/phloc-procurement/src/main/java/com/phloc/procurement/domain/EProcState.java:87-91 | The search returns a state with that id, or none when no state has it. |
| ProcStates.FromIDOrNull | trunk/phloc-procurement/src/main/java/com/phloc/procurement/domain/EProcState.java:87-91 | getFromIDOrNull of null is null; a found state has the requested id. |
| ProcStates.AllStatesComplete | trunk/phloc-procurement/src/main/java/com/phloc/procurement/domain/EProcState.java:39-52 | Every state is listed. |
| ProcStates.IDsDistinct | trunk/phloc-procurement/src/main/java/com/phloc/procurement/domain/EProcState.java:39-52 | State ids are non-empty and pairwise distinct. |
| ProcStates.EditAllowedStates | trunk/phloc-procurement/src/main/java/com/phloc/procurement/domain/EProcState.java:39-52 | isEditAllowed holds exactly for CREATED and REJECTED. |
| ProcStates.FromIDOfID | trunk/phloc-procurement/src/main/java/com/phloc/procurement/domain/EProcState.java:87-91 | getFromIDOrNull of a state's id is that state. |
| Ubl.CustomizationSchemeID | trunk/src/main/java/com/phloc/procurement/exchange/ubl/EUBLInvoiceCustomization.java:28-31 | PEPPOL carries a customization scheme id ("PEPPOL"); STANDARD carries none. |
| Ubl.CustomizationValue | trunk/src/main/java/com/phloc/procurement/exchange/ubl/EUBLInvoiceCustomization.java:83-86 | STANDARD's customization id is "phloc-procurement"; PEPPOL has its BII/PEPPOL URN. |
| Ubl.ProfileID | trunk/src/main/java/com/phloc/procurement/exchange/ubl/EUBLInvoiceCustomization.java:40-43 | PEPPOL carries a profile id; STANDARD carries none. |
| Ubl.FeatureFlags | trunk/src/main/java/com/phloc/procurement/exchange/ubl/EUBLInvoiceCustomization.java:45-67 | PEPPOL disables all four feature flags and STANDARD enables all of them. |
| Ubl.EnsureNameLengthAsWritten | trunk/src/main/java/com/phloc/procurement/exchange/ubl/EUBLInvoiceCustomization.java:70-75 | As written, PEPPOL keeps names of up to 50 characters and maps longer ones to 48 characters plus "...". |
| Ubl.EnsureNameLengthAsWrittenTooLong | trunk/src/main/java/com/phloc/procurement/exchange/ubl/EUBLInvoiceCustomization.java:72-73 | As written, a long PEPPOL name comes out 51 characters long. |
| Ubl.EnsureNameLength | trunk/src/main/java/com/phloc/procurement/exchange/ubl/EUBLInvoiceCustomization.java:70-75 | The corrected rule: STANDARD is the identity; PEPPOL keeps short names and cuts longer ones to at most 50 characters ending in "...". |
| Ubl.EnsureNameLengthIdempotent | trunk/src/main/java/com/phloc/procurement/exchange/ubl/EUBLInvoiceCustomization.java:70-75 | Applying the corrected rule twice is applying it once. |
| Ubl.EnsureNameLengthAgreesOnShortNames | trunk/src/main/java/com/phloc/procurement/exchange/ubl/EUBLInvoiceCustomization.java:70-75 | The corrected and the written rule agree on names of up to 50 characters. |
| Ubl.NewTaxKey | trunk/src/main/java/com/phloc/procurement/exchange/ubl/AbstractUBL20Serializer.java:74-87 | A null type, category or percentage is a null pointer, checked in that order; otherwise the key holds the three components. |
| Ubl.TaxKeyEquality | trunk/src/main/java/com/phloc/procurement/exchange/ubl/AbstractUBL20Serializer.java:107-118 | Two keys are equal exactly when all three components are. |
| Ubl.TaxValue.constructor | trunk/src/main/java/com/phloc/procurement/exchange/ubl/AbstractUBL20Serializer.java:141-142 | A new tax value starts at zero for both amounts. |
| Ubl.TaxValue.Increment | trunk/src/main/java/com/phloc/procurement/exchange/ubl/AbstractUBL20Serializer.java:144-148 | increment adds to both sums. |
| Ubl.CreateCountry | trunk/src/main/java/com/phloc/procurement/exchange/ubl/AbstractUBL20Serializer.java:167-186 | No country gives no element; otherwise the country code, and the localized name exactly when the customization allows it. |
| Ubl.ConcatenatedOnDemand | trunk/src/main/java/com/phloc/procurement/exchange/ubl/AbstractUBL20Serializer.java:302-304 | Both parts with text are joined by the separator; otherwise whichever has text, otherwise "". |
| Ubl.SenderContact | trunk/src/main/java/com/phloc/procurement/exchange/ubl/AbstractUBL20Serializer.java:284-311 | E-mail and telephone appear exactly when they have text; the name appears exactly when allowed and first or last name has text. |
| Ubl.PeppolContactHasNoName | trunk/src/main/java/com/phloc/procurement/exchange/ubl/AbstractUBL20Serializer.java:300-311 | Under PEPPOL the sender contact never has a name. |
| Ubl.CheckWriteInvoice | src/main/java/com/phloc/procurement/exchange/ubl/UBL20InvoiceSerializer.java:87-96 | A null sender, invoice or locale is a null pointer in that order; a missing customer or invoice or an empty line list is an illegal argument; otherwise no error. |
| Ubl.KeyOfLine | src/main/java/com/phloc/procurement/exchange/ubl/UBL20InvoiceSerializer.java:213-224 | A line has a tax key exactly when it has a unit price and a tax category. |
| Ubl.AddLine | src/main/java/com/phloc/procurement/exchange/ubl/UBL20InvoiceSerializer.java:213-226 | One grouping step succeeds exactly when the line has a unit price, a tax category and a non-negative quantity. |
| Ubl.FirstSeenProperties | src/main/java/com/phloc/procurement/exchange/ubl/UBL20InvoiceSerializer.java:213-224 | The first-seen key list holds every key once and nothing else. |
| Ubl.GroupKeys | src/main/java/com/phloc/procurement/exchange/ubl/UBL20InvoiceSerializer.java:213-224 | The group keys in group order. |
| Ubl.AmountForAbsentKey | src/main/java/com/phloc/procurement/exchange/ubl/UBL20InvoiceSerializer.java:225 | A key no line carries has a zero sum. |
| Ubl.KeysAppend | src/main/java/com/phloc/procurement/exchange/ubl/UBL20InvoiceSerializer.java:213-224 | A new line with a key appends that key. |
| Ubl.AmountForAppend | src/main/java/com/phloc/procurement/exchange/ubl/UBL20InvoiceSerializer.java:225 | A new line adds its amount to its own key's sum and to no other. |
| Ubl.NewGroupKeepsGroupsOf | src/main/java/com/phloc/procurement/exchange/ubl/UBL20InvoiceSerializer.java:218-222 | A line with an unseen key opens a new group at the end and keeps the grouping invariant. |
| Ubl.OldGroupKeepsGroupsOf | src/main/java/com/phloc/procurement/exchange/ubl/UBL20InvoiceSerializer.java:223-225 | A line with a seen key adds to that group and keeps the grouping invariant. |
| Ubl.AddLineKeepsGroupsOf | src/main/java/com/phloc/procurement/exchange/ubl/UBL20InvoiceSerializer.java:213-226 | Every successful grouping step keeps the grouping invariant. |
| Ubl.GroupLinesStopsAtError | src/main/java/com/phloc/procurement/exchange/ubl/UBL20InvoiceSerializer.java:213-226 | The loop stops at the first line it cannot take. |
| Ubl.GroupLinesCorrect | src/main/java/com/phloc/procurement/exchange/ubl/UBL20InvoiceSerializer.java:213-226 | The grouping succeeds exactly when every line can be grouped; it then yields one group per distinct key in first-seen order, each with its lines' sums. |
| Ubl.GroupTaxSubtotals | src/main/java/com/phloc/procurement/exchange/ubl/UBL20InvoiceSerializer.java:213-226 | The loop yields exactly the grouping of the lines. |
| Ubl.EmitSubtotals | src/main/java/com/phloc/procurement/exchange/ubl/UBL20InvoiceSerializer.java:229-238 | Exactly one subtotal per group, in group order. |
| Ubl.SubtotalsPerDistinctKey | src/main/java/com/phloc/procurement/exchange/ubl/UBL20InvoiceSerializer.java:213-238 | The emitted subtotals are one per distinct key, each carrying its lines' taxable and tax sums. |
| Ubl.LineSubtotal | src/main/java/com/phloc/procurement/exchange/ubl/UBL20InvoiceSerializer.java:308-319 | A per-line subtotal appears exactly when the customization allows it and carries the line's net and tax totals. |
| Ubl.ItemName | src/main/java/com/phloc/procurement/exchange/ubl/UBL20InvoiceSerializer.java:334-341 | Uses the corrected EnsureNameLength (PEPPOL name row under Findings): the item name has text when present; under PEPPOL it has at most 50 characters, where the source as written yields 51; under STANDARD it is the description when that has text. |
| SimpleSerializer.ReadID | trunk/src/main/java/com/phloc/procurement/exchange/SimpleProcSerializer.java:97-103 | The id is 0 when not read, ILLEGAL_UINT when missing, and the parsed value when it is a 32-bit number. |
| SimpleSerializer.ReadDeleted | trunk/src/main/java/com/phloc/procurement/exchange/SimpleProcSerializer.java:112-118 | A missing deleted attribute reads as false. |
| SimpleSerializer.ReadDeletableOfWritten | trunk/src/main/java/com/phloc/procurement/exchange/SimpleProcSerializer.java:92-118 | Reading the id and deleted attributes that were written gives them back. |
| SimpleSerializer.ReadParty | trunk/src/main/java/com/phloc/procurement/exchange/SimpleProcSerializer.java:157-179 | Uses the corrected setEndpointID (endpoint row under Findings): reading fails exactly when the entityid or address child is missing; a read party carries the read id and deleted flag and is clamped, the endpoint id included, which the source as written does not clamp. |
| SimpleSerializer.ReadAddressOfWritten | trunk/src/main/java/com/phloc/procurement/exchange/SimpleProcSerializer.java:132-144 | The written address children read back as the party's address. |
| SimpleSerializer.ReadPartyOfWritten | trunk/src/main/java/com/phloc/procurement/exchange/SimpleProcSerializer.java:120-179 | Reading a written party gives the party back. |
| SimpleSerializer.WriteCustomer | trunk/src/main/java/com/phloc/procurement/exchange/SimpleProcSerializer.java:232-249 | The customer element carries one paymentterm child per payment term, in order. |
| SimpleSerializer.ReadPaymentTerm | trunk/src/main/java/com/phloc/procurement/exchange/SimpleProcSerializer.java:259-267 | A read payment term belongs to the customer, has the read id, a clamped description and days -1 when missing. |
| SimpleSerializer.ReadPaymentTerms | trunk/src/main/java/com/phloc/procurement/exchange/SimpleProcSerializer.java:259-267 | One payment term per paymentterm child, in order. |
| SimpleSerializer.ReadCustomer | trunk/src/main/java/com/phloc/procurement/exchange/SimpleProcSerializer.java:252-270 | A party error is passed on; a missing client fails; read terms are the terms of the paymentterm children. |
| SimpleSerializer.ReadPaymentTermOfWritten | trunk/src/main/java/com/phloc/procurement/exchange/SimpleProcSerializer.java:241-246 | A written payment term reads back as itself. |
| SimpleSerializer.ReadCustomerOfWritten | src/test/java/com/phloc/procurement/exchange/SimpleProcSerializerTest.java:40-127 | Reading a written customer gives the customer back. |
| SimpleSerializer.ReadCustomerHeadOfWritten | trunk/src/main/java/com/phloc/procurement/exchange/SimpleProcSerializer.java:232-257 | A written customer reads back its party and client. |
| SimpleSerializer.ReadPaymentTermsOfWritten | trunk/src/main/java/com/phloc/procurement/exchange/SimpleProcSerializer.java:237-267 | The written payment terms read back in order. |
| SimpleSerializer.AttachmentElement | trunk/src/main/java/com/phloc/procurement/exchange/SimpleProcSerializer.java:181-189 | The attachment element carries title, MIME type and the Base64 of the content. |
| SimpleSerializer.ResolvedAll | trunk/src/main/java/com/phloc/procurement/exchange/SimpleProcSerializer.java:324-336 | When every link resolves, each is written in order. |
| SimpleSerializer.AttachmentElements | trunk/src/main/java/com/phloc/procurement/exchange/SimpleProcSerializer.java:324-336 | One attachment child per resolved link, in order. |
| SimpleSerializer.ReadAttachment | trunk/src/main/java/com/phloc/procurement/exchange/SimpleProcSerializer.java:192-198 | A read attachment is in memory with the new id, the title attribute, upload time now and the decoded content. |
| SimpleSerializer.ReadAttachmentOfWritten | trunk/src/main/java/com/phloc/procurement/exchange/SimpleProcSerializer.java:181-198 | Reading a written attachment gives its in-memory copy under the new id. |
| SimpleSerializer.LinkTo | trunk/src/main/java/com/phloc/procurement/exchange/SimpleProcSerializer.java:380-381 | The link takes the id of the attachment returned by the read handler. |
| SimpleSerializer.ReadLink | trunk/src/main/java/com/phloc/procurement/exchange/SimpleProcSerializer.java:376-382 | Reading a link fails exactly when reading the attachment fails. |
| SimpleSerializer.ReadLinks | trunk/src/main/java/com/phloc/procurement/exchange/SimpleProcSerializer.java:376-383 | The links are read in order; the loop fails at the first attachment that cannot be read. |
| SimpleSerializer.ReadLinksFirstError | trunk/src/main/java/com/phloc/procurement/exchange/SimpleProcSerializer.java:376-383 | The error of the loop is that of the first failing attachment. |
| SimpleSerializer.ReadLinksAllRead | trunk/src/main/java/com/phloc/procurement/exchange/SimpleProcSerializer.java:376-383 | When every attachment is read the loop yields all links in order. |
| SimpleSerializer.ReadLinksOfWritten | trunk/src/main/java/com/phloc/procurement/exchange/SimpleProcSerializer.java:324-383 | Written attachments read back as the links the read handler produces. |
| SimpleSerializer.ReadOrderItem | trunk/src/main/java/com/phloc/procurement/exchange/SimpleProcSerializer.java:359-373 | An item is read exactly when it has a unit price (else a null pointer); it is clamped, belongs to the order and has quantity -1 when missing. |
| SimpleSerializer.ReadOrderItemOfWritten | trunk/src/main/java/com/phloc/procurement/exchange/SimpleProcSerializer.java:306-373 | A written order item reads back as itself. |
| SimpleSerializer.OrderItemElements | trunk/src/main/java/com/phloc/procurement/exchange/SimpleProcSerializer.java:306-323 | One orderitem child per item, in order. |
| SimpleSerializer.ReadOrderItems | trunk/src/main/java/com/phloc/procurement/exchange/SimpleProcSerializer.java:357-374 | All items are read in order, or the loop fails on a missing unit price. |
| SimpleSerializer.ReadOrderItemsAllRead | trunk/src/main/java/com/phloc/procurement/exchange/SimpleProcSerializer.java:357-374 | When every item is read the loop yields them all in order. |
| SimpleSerializer.WriteOrder | trunk/src/main/java/com/phloc/procurement/exchange/SimpleProcSerializer.java:292-338 | The order element carries id and deleted attributes, the item children and the attachment children. |
| SimpleSerializer.ReadOrder | trunk/src/main/java/com/phloc/procurement/exchange/SimpleProcSerializer.java:341-385 | Reading succeeds exactly when items and attachments are read; the order is clamped and its items belong to it. |
| SimpleSerializer.ReadOrderOfLists | trunk/src/main/java/com/phloc/procurement/exchange/SimpleProcSerializer.java:341-385 | With items and links read, the order holds exactly the read header, items and links. |
| SimpleSerializer.ReadOrderItemsFailed | trunk/src/main/java/com/phloc/procurement/exchange/SimpleProcSerializer.java:357-374 | A failing item fails the whole read. |
| SimpleSerializer.ReadOrderLinksFailed | trunk/src/main/java/com/phloc/procurement/exchange/SimpleProcSerializer.java:376-383 | A failing attachment fails the whole read. |
| SimpleSerializer.ReadOrderItemsOfWritten | trunk/src/main/java/com/phloc/procurement/exchange/SimpleProcSerializer.java:306-374 | The written items read back as the order's item list. |
| SimpleSerializer.ReadOrderHeaderOfWritten | trunk/src/main/java/com/phloc/procurement/exchange/SimpleProcSerializer.java:296-355 | The written header fields read back. |
| SimpleSerializer.ReadOrderOfWritten | src/test/java/com/phloc/procurement/exchange/SimpleProcSerializerTest.java:40-127 | Reading a written order gives the order back, with its attachments as the read handler links them. |
| SimpleSerializer.ReadOrderOfWrittenNoAttachments | src/test/java/com/phloc/procurement/exchange/SimpleProcSerializerTest.java:40-127 | An order without attachments reads back as itself. |
| SimpleSerializer.ReadInvoiceLine | trunk/src/main/java/com/phloc/procurement/exchange/SimpleProcSerializer.java:451-470 | A line is read exactly when it has a unit price (else a null pointer); it is clamped, belongs to the invoice and has quantity -1 when missing. |
| SimpleSerializer.ReadInvoiceLineOfWritten | trunk/src/main/java/com/phloc/procurement/exchange/SimpleProcSerializer.java:398-470 | A written invoice line reads back as itself. |
| SimpleSerializer.InvoiceLineElements | trunk/src/main/java/com/phloc/procurement/exchange/SimpleProcSerializer.java:398-421 | One invoiceline child per line, in order. |
| SimpleSerializer.ReadInvoiceLines | trunk/src/main/java/com/phloc/procurement/exchange/SimpleProcSerializer.java:449-471 | All lines are read in order, or the loop fails on a missing unit price. |
| SimpleSerializer.ReadInvoiceLinesAllRead | trunk/src/main/java/com/phloc/procurement/exchange/SimpleProcSerializer.java:449-471 | When every line is read the loop yields them all in order. |
| SimpleSerializer.WriteInvoice | trunk/src/main/java/com/phloc/procurement/exchange/SimpleProcSerializer.java:388-436 | The invoice element carries id and deleted attributes, the line children and the attachment children. |
| SimpleSerializer.ReadInvoice | trunk/src/main/java/com/phloc/procurement/exchange/SimpleProcSerializer.java:439-485 | Reading succeeds exactly when lines and attachments are read; the invoice is clamped and its lines belong to it. |
| SimpleSerializer.ReadInvoiceOfLists | trunk/src/main/java/com/phloc/procurement/exchange/SimpleProcSerializer.java:439-485 | With lines and links read, the invoice holds exactly the read header, lines and links. |
| SimpleSerializer.ReadInvoiceLinesFailed | trunk/src/main/java/com/phloc/procurement/exchange/SimpleProcSerializer.java:449-471 | A failing line fails the whole read. |
| SimpleSerializer.ReadInvoiceLinksFailed | trunk/src/main/java/com/phloc/procurement/exchange/SimpleProcSerializer.java:473-483 | A failing attachment fails the whole read. |
| SimpleSerializer.ReadInvoiceLinesOfWritten | trunk/src/main/java/com/phloc/procurement/exchange/SimpleProcSerializer.java:398-471 | The written lines read back as the invoice's line list. |
| SimpleSerializer.ReadInvoiceHeaderOfWritten | trunk/src/main/java/com/phloc/procurement/exchange/SimpleProcSerializer.java:392-447 | The written header fields read back. |
| SimpleSerializer.ReadInvoiceOfWritten | src/test/java/com/phloc/procurement/exchange/SimpleProcSerializerTest.java:40-127 | Reading a written invoice gives the invoice back, with its attachments as the read handler links them. |
| SimpleSerializer.ReadInvoiceOfWrittenNoAttachments | src/test/java/com/phloc/procurement/exchange/SimpleProcSerializerTest.java:40-127 | An invoice without attachments reads back as itself. |
| SerializerObjects.ReadLinkList | trunk/src/main/java/com/phloc/procurement/exchange/SimpleProcSerializer.java:376-383 | The attachment loop yields exactly ReadLinks. |
| SerializerObjects.BuildOrderItem | trunk/src/main/java/com/phloc/procurement/exchange/SimpleProcSerializer.java:361-372 | A new item of the order gets the read fields, clamped; a missing unit price is a null pointer. |
| SerializerObjects.ReadOrderItemObject | trunk/src/main/java/com/phloc/procurement/exchange/SimpleProcSerializer.java:359-372 | The item object holds exactly the value ReadOrderItem reads, and fails when it fails. |
| SerializerObjects.ReadOrderItemList | trunk/src/main/java/com/phloc/procurement/exchange/SimpleProcSerializer.java:357-374 | The item loop yields exactly ReadOrderItems. |
| SerializerObjects.BuildOrderHeader | trunk/src/main/java/com/phloc/procurement/exchange/SimpleProcSerializer.java:345-355 | A new order gets the header fields, clamped. |
| SerializerObjects.ReadOrderHeader | trunk/src/main/java/com/phloc/procurement/exchange/SimpleProcSerializer.java:345-355 | The order object holds the header read from the element. |
| SerializerObjects.ReadOrderWithItems | trunk/src/main/java/com/phloc/procurement/exchange/SimpleProcSerializer.java:345-374 | The order object holds the header and the read items, or fails as the item loop does. |
| SerializerObjects.ReadOrderObject | trunk/src/main/java/com/phloc/procurement/exchange/SimpleProcSerializer.java:341-385 | The order object holds exactly the value ReadOrder reads, and fails when it fails. |
| SerializerObjects.BuildInvoiceLineIDs | trunk/src/main/java/com/phloc/procurement/exchange/SimpleProcSerializer.java:453-456 | A new line of the invoice gets id, order item id and line id. |
| SerializerObjects.BuildInvoiceLineHead | trunk/src/main/java/com/phloc/procurement/exchange/SimpleProcSerializer.java:453-462 | A new line gets the fields up to the quantity. |
| SerializerObjects.BuildInvoiceLine | trunk/src/main/java/com/phloc/procurement/exchange/SimpleProcSerializer.java:453-469 | A new line gets all read fields, clamped; a missing unit price is a null pointer. |
| SerializerObjects.ReadInvoiceLineObject | trunk/src/main/java/com/phloc/procurement/exchange/SimpleProcSerializer.java:451-470 | The line object holds exactly the value ReadInvoiceLine reads, and fails when it fails. |
| SerializerObjects.ReadInvoiceLineList | trunk/src/main/java/com/phloc/procurement/exchange/SimpleProcSerializer.java:449-471 | The line loop yields exactly ReadInvoiceLines. |
| SerializerObjects.BuildInvoiceHeader | trunk/src/main/java/com/phloc/procurement/exchange/SimpleProcSerializer.java:443-447 | A new invoice gets the header fields, clamped. |
| SerializerObjects.ReadInvoiceHeader | trunk/src/main/java/com/phloc/procurement/exchange/SimpleProcSerializer.java:443-447 | The invoice object holds the header read from the element. |
| SerializerObjects.ReadInvoiceWithLines | trunk/src/main/java/com/phloc/procurement/exchange/SimpleProcSerializer.java:443-471 | The invoice object holds the header and the read lines, or fails as the line loop does. |
| SerializerObjects.ReadInvoiceObject | trunk/src/main/java/com/phloc/procurement/exchange/SimpleProcSerializer.java:439-485 | The invoice object holds exactly the value ReadInvoice reads, and fails when it fails. |
| Xml.NewElement | trunk/src/main/java/com/phloc/procurement/exchange/SimpleProcSerializer.java:234 | A new element has the name and nothing else. |
| Xml.Attribute | trunk/src/main/java/com/phloc/procurement/exchange/SimpleProcSerializer.java:102 | getAttribute gives the value exactly when the attribute is set. |
| Xml.WithAttr | trunk/src/main/java/com/phloc/procurement/exchange/SimpleProcSerializer.java:94 | setAttribute sets that attribute and leaves the others. |
| Xml.FirstChild | trunk/src/main/java/com/phloc/procurement/exchange/SimpleProcSerializer.java:162 | getFirstChildElement gives the first child with the name, or none when no child has it. |
| Xml.ChildText | trunk/src/main/java/com/phloc/procurement/exchange/SimpleProcSerializer.java:165 | getChildTextContent is the text of the first child with the name. |
| Xml.AllChildren | trunk/src/main/java/com/phloc/procurement/exchange/SimpleProcSerializer.java:259 | getAllChildElements keeps the children with the name. |
| Xml.AllChildrenAppend | trunk/src/main/java/com/phloc/procurement/exchange/SimpleProcSerializer.java:359 | Selecting children distributes over concatenation. |
| Xml.SetAttribute | tags/phloc-procurement-1.0.5/src/main/java/com/phloc/procurement/party/AbstractProcPartyMicroTypeConverter.java:39-70 | setAttribute sets the attribute (a null value removes it) and leaves the others. |
| Xml.Write | tags/phloc-procurement-1.0.5/src/main/java/com/phloc/procurement/party/AbstractProcPartyMicroTypeConverter.java:41-42 | One guarded setAttribute. |
| Xml.PutAll | tags/phloc-procurement-1.0.5/src/main/java/com/phloc/procurement/party/AbstractProcPartyMicroTypeConverter.java:39-70 | A sequence of guarded writes keeps name, children and text. |
| Xml.PutAllLookup | tags/phloc-procurement-1.0.5/src/main/java/com/phloc/procurement/party/AbstractProcPartyMicroTypeConverter.java:39-70 | After writes to distinct attributes each attribute holds its write's value when guarded, else its old value. |
| Xml.ParsedFormatted | trunk/src/main/java/com/phloc/procurement/exchange/SimpleProcSerializer.java:144-173 | A value written with conversion reads back when the converter round-trips. |

## Left out

- Value converters are parameters. Dates, incoterms, commodity schemes, tax categories, locales, MIME types and prices are written and read through converters passed in as parameters. The round-trip lemmas assume each converter reads back what it writes.
- External inputs are parameters. These are the attachment read handler, the generator of new persistent ids, the current time, `Locale.getDisplayCountry` and the localized texts of processing states.
- Payment-term percentages are `double` in the source. The model drops the percentage field of a payment term altogether: its `percentage` attribute written by the simple serializer, its reading with a NaN default, and its part in `ProcCustomerPaymentTerm.equals`.
- `MasterdataUtils.getEnsuredLength` is not part of this model. `Common.EnsuredLength` assumes that it keeps null, keeps a text that fits and cuts a longer text to its prefix of the maximum length; `EnsuredLengthIdempotent`, `ClampedSetRepeat` and the round trips of clamped texts rest on that reading.
- Common.ParseLong: the contract only bounds the result. The exact value is stated, for the canonical decimal text, by `Common.ParseLongOfIntToString`.
- Master data and suppliers are not modelled. Their serializer code is the same party code plus the client, which the customer covers.
- Base64 decoding is strict RFC 4648 section 4 decoding. `Base64Helper.safeDecode` also swallows malformed input, and the model does not say what it then yields.
- Order items and invoice lines are held by their documents as values, not as references to their objects. A change made to an item after it was added is not modelled.
- Common.ParseInt: the contract only bounds the result. The exact value is stated, for the canonical decimal text, by `Common.ParseIntOfIntToString`.
- Xml.AllChildren: the contract states only that the result is a selection of the children with the name. Its exact behaviour is given by `Xml.AllChildrenAppend` and the uniform and disjoint cases.
- `MicroElement` and `MicroUtils` are not part of this model. The XML tree is the `Xml.Element` value, and `setAttribute` with a null value is modelled as removing the attribute.
- The length limits in `CProcLengthConstraints` are not part of this model. They are constants with unspecified values, so every proof holds for any limit.
- Locking and the `@MustBeLocked` discipline of the storage handler and the registry are not modelled. The model is sequential.
- File I/O is modelled by an abstract disk value: directories, the table of contents and the per-attachment metadata and content. Failure to create or delete a directory is a parameter.
- `UBL20OrderSerializer`, the JAXB binding classes and the UBL document assembly of `writeInvoice` are not modelled. Only the argument checks, the tax-subtotal grouping, the per-line subtotal and the item name are covered.
- The UBL legal monetary totals are not modelled.
- JPA annotations and persistence are not modelled.

## Findings

| source | as written | input that shows it | evidently intended | confidence | as-written member | corrected member |
|---|---|---|---|---|---|---|
| trunk/src/main/java/com/phloc/procurement/exchange/ubl/EUBLInvoiceCustomization.java:72-73 | a PEPPOL name longer than 50 characters becomes its first 48 characters plus "...", 51 characters in all | any name of 51 or more characters | at most 50 characters, the limit the method tests and the limit the invoice serializer states where it calls the method | not executed | Ubl.EnsureNameLengthAsWrittenTooLong | Ubl.EnsureNameLength |
| tags/phloc-procurement-1.0.5/src/main/java/com/phloc/procurement/party/AbstractProcPartyMicroTypeConverter.java:69-70 | the IBAN attribute is written only when the VATIN has text | a party with no VATIN and the IBAN "x" reads back without its IBAN | the IBAN is written when the IBAN has text, like every other field | not executed | PartyConverter.IbanLostAsWrittenExample | PartyConverter.ReadOfWritten |
| trunk/phloc-procurement/src/main/java/com/phloc/procurement/party/AbstractProcParty.java:155-159 | setEndpointID compares the clamped value but stores the raw input | an endpoint id of LENGTH_ENDPOINTID + 1 characters is stored in full | store the clamped value, like every other text setter | not executed | Parties.EndpointSetAsWrittenExample | Parties.ProcParty.SetEndpointID |
