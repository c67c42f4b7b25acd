/** The document-ingestion rules shared by the three upload variants: the upload filter,
    classification of the extracted text, the extracted count, the 500-character preview,
    the document and notification records, and the per-user notification list
    (pending filter, lookup by id, mark-delivered). */
module DocumentPipeline {
  import opened Wrappers
  import opened Strings
  import opened Js
  import opened Http

  /** The upload size cap: 10 MiB. */
  const MaxFileSize: nat := 10 * 1024 * 1024
  const PreviewLength: nat := 500
  const DefaultUser := "test-user-123"
  const PdfMime := "application/pdf"
  const JsonMime := "application/json"
  const PdfFailurePrefix := "PDF processing failed: "
  const TextFailurePrefix := "Text processing failed: "
  const FilterRejection := "Only PDF, text, and JSON files are allowed"
  const SizeRejection := "File too large"
  const NotificationPrefix := "Your provider has uploaded a new document: "

  datatype DocumentType = PdfDoc | JsonDoc | TextDoc | UnknownDoc

  /** The file as the upload middleware describes it. */
  datatype UploadedFile = UploadedFile(filename: string, originalName: string, mimetype: string, size: nat, path: string)

  const NoFileUploaded := HttpError(400, "No file uploaded")

  /** `req.query.userId || 'test-user-123'`. */
  function EffectiveUser(query: Option<string>): (u: string)
    ensures Given(query) ==> u == query.value
    ensures !Given(query) ==> u == DefaultUser
  {
    OrDefault(query, DefaultUser)
  }

  // ---------------------------------------------------------------- filter

  /** The upload filter of the in-memory and the stateless variants: PDF, any type
      mentioning `text`, or JSON. */
  predicate AcceptsMime(mimetype: string) {
    mimetype == PdfMime || Contains(mimetype, "text") || mimetype == JsonMime
  }

  /** JSON uploads pass the filter. */
  lemma JsonAccepted()
    ensures AcceptsMime(JsonMime)
    ensures !Contains(JsonMime, "text")
  {
    NoMatchByLeadingPair(JsonMime, "text");
  }

  /** The upload middleware: the type filter runs first, then the size cap. */
  function Screen(file: UploadedFile, accepts: string -> bool): (r: Result<UploadedFile, string>)
    ensures r.Ok? <==> accepts(file.mimetype) && file.size <= MaxFileSize
    ensures r.Ok? ==> r.value == file
    ensures !accepts(file.mimetype) ==> r == Err(FilterRejection)
    ensures accepts(file.mimetype) && file.size > MaxFileSize ==> r == Err(SizeRejection)
  {
    if !accepts(file.mimetype) then Err(FilterRejection)
    else if file.size > MaxFileSize then Err(SizeRejection)
    else Ok(file)
  }

  // ---------------------------------------------------------------- classification

  /** The types the handler tries to read as text. */
  predicate ReadAsText(mimetype: string) {
    mimetype != PdfMime && (Contains(mimetype, "text") || mimetype == JsonMime)
  }

  datatype Classification = Classification(documentType: DocumentType, extractedText: string)

  /** The handler's classification, given what reading (and, for PDF, parsing) the file
      produced: its text, or the message of the error it threw. */
  function Classify(mimetype: string, extraction: Result<string, string>): (c: Classification)
    ensures c.documentType == PdfDoc <==> mimetype == PdfMime && extraction.Ok?
    ensures c.documentType == JsonDoc <==> mimetype == JsonMime && extraction.Ok?
    ensures c.documentType == TextDoc <==> ReadAsText(mimetype) && mimetype != JsonMime && extraction.Ok?
    ensures (mimetype == PdfMime || ReadAsText(mimetype)) && extraction.Ok? ==> c.extractedText == extraction.value
    ensures mimetype == PdfMime && extraction.Err? ==> c.extractedText == PdfFailurePrefix + extraction.error
    ensures ReadAsText(mimetype) && extraction.Err? ==> c.extractedText == TextFailurePrefix + extraction.error
    ensures mimetype != PdfMime && !ReadAsText(mimetype) ==> c == Classification(UnknownDoc, "")
  {
    if mimetype == PdfMime then
      match extraction
      case Ok(text) => Classification(PdfDoc, text)
      case Err(message) => Classification(UnknownDoc, PdfFailurePrefix + message)
    else if Contains(mimetype, "text") || mimetype == JsonMime then
      match extraction
      case Ok(text) => Classification(if mimetype == JsonMime then JsonDoc else TextDoc, text)
      case Err(message) => Classification(UnknownDoc, TextFailurePrefix + message)
    else Classification(UnknownDoc, "")
  }

  /** A failed read always leaves the type unknown and a non-empty diagnostic text. */
  lemma {:induction false} FailedExtractionIsUnknown(mimetype: string, message: string)
    requires mimetype == PdfMime || ReadAsText(mimetype)
    ensures Classify(mimetype, Err(message)).documentType == UnknownDoc
    ensures ExtractedCount(Classify(mimetype, Err(message)).extractedText) == 1
  {
  }

  /** `extractedText.length > 0 ? 1 : 0`. */
  function ExtractedCount(text: string): (n: nat)
    ensures n <= 1
    ensures n == 1 <==> text != ""
  {
    if |text| > 0 then 1 else 0
  }

  /** `text.substring(0, 500) + (text.length > 500 ? '...' : '')`. */
  function Preview(text: string): (p: string)
    ensures |text| <= PreviewLength ==> p == text
    ensures |text| > PreviewLength ==> p == text[..PreviewLength] + "..."
  {
    if |text| > PreviewLength then text[..PreviewLength] + "..." else text
  }

  /** The preview starts with the first 500 characters of the text, is at most three
      characters longer than that, and ends in `...` exactly when text was cut off. */
  lemma {:induction false} PreviewIsBoundedPrefix(text: string)
    ensures var p := Preview(text);
      var k := if |text| < PreviewLength then |text| else PreviewLength;
      && |p| <= PreviewLength + 3
      && StartsWith(p, text[..k])
      && (|p| > PreviewLength <==> |text| > PreviewLength)
  {
    var p := Preview(text);
    if |text| > PreviewLength {
      assert p[..PreviewLength] == text[..PreviewLength];
    } else {
      assert text[..|text|] == text;
    }
  }

  function UploadMessage(extractedLength: nat): string {
    "Document uploaded and processed successfully. " + NatToString(extractedLength) + " characters extracted."
  }

  // ---------------------------------------------------------------- records

  datatype DocMetadata = DocMetadata(
    originalName: string,
    filePath: string,
    documentType: DocumentType,
    extractedText: string,
    uploadTimestamp: string)

  /** A stored document; `metadata` is absent only in stores not written by an upload. */
  datatype Document = Document(
    id: string,
    filename: string,
    fileType: string,
    fileSize: nat,
    uploadTimestamp: string,
    extractedCount: nat,
    metadata: Option<DocMetadata>)

  datatype Notification = Notification(
    id: string,
    documentId: string,
    timestamp: string,
    isRead: bool,
    isDelivered: bool,
    message: string,
    userId: string,
    deliveredAt: Option<string>)

  /** The document record an upload stores; `id` and `now` stand for the generated id and
      the current time. */
  function BuildDocument(file: UploadedFile, c: Classification, id: string, now: string): (d: Document)
    ensures d.id == id && d.filename == file.filename && d.fileType == file.mimetype && d.fileSize == file.size
    ensures d.extractedCount == ExtractedCount(c.extractedText)
    ensures d.metadata == Some(DocMetadata(file.originalName, file.path, c.documentType, c.extractedText, now))
  {
    Document(id, file.filename, file.mimetype, file.size, now, ExtractedCount(c.extractedText),
      Some(DocMetadata(file.originalName, file.path, c.documentType, c.extractedText, now)))
  }

  /** The notification an upload stores: undelivered, unread, pointing at the document,
      with a message ending in the filename. */
  function BuildNotification(id: string, doc: Document, userId: string, now: string): (n: Notification)
    ensures n.id == id && n.documentId == doc.id && n.userId == userId
    ensures !n.isDelivered && !n.isRead && n.deliveredAt.None?
    ensures n.message == NotificationPrefix + doc.filename
  {
    Notification(id, doc.id, now, false, false, NotificationPrefix + doc.filename, userId, None)
  }

  datatype UploadResponse = UploadResponse(
    document: Document,
    notification: Notification,
    preview: string,
    message: string,
    documentType: DocumentType)

  function BuildResponse(doc: Document, n: Notification, c: Classification): UploadResponse {
    UploadResponse(doc, n, Preview(c.extractedText), UploadMessage(|c.extractedText|), c.documentType)
  }

  /** The body of a content lookup. */
  datatype ContentView = ContentView(
    id: string,
    filename: string,
    fileType: string,
    uploadTimestamp: string,
    extractedText: string,
    documentType: DocumentType,
    fileSize: nat)

  /** `metadata?.extractedText || ''` and `metadata?.documentType || 'unknown'`. */
  function ContentOf(d: Document): (v: ContentView)
    ensures v.id == d.id && v.filename == d.filename && v.fileType == d.fileType && v.fileSize == d.fileSize
    ensures d.metadata.None? ==> v.extractedText == "" && v.documentType == UnknownDoc
    ensures d.metadata.Some? ==> v.extractedText == d.metadata.value.extractedText && v.documentType == d.metadata.value.documentType
  {
    ContentView(d.id, d.filename, d.fileType, d.uploadTimestamp,
      if d.metadata.Some? then d.metadata.value.extractedText else "",
      if d.metadata.Some? then d.metadata.value.documentType else UnknownDoc,
      d.fileSize)
  }

  // ---------------------------------------------------------------- per-user lists

  /** `store[userId] || []`. */
  function ListOf<T>(store: map<string, seq<T>>, userId: string): seq<T> {
    if userId in store then store[userId] else []
  }

  /** Appending to one user's list leaves every other user's list as it was. */
  lemma {:induction false} AppendTouchesOnlyOwner<T>(store: map<string, seq<T>>, userId: string, x: T, other: string)
    ensures ListOf(store[userId := ListOf(store, userId) + [x]], userId) == ListOf(store, userId) + [x]
    ensures other != userId ==> ListOf(store[userId := ListOf(store, userId) + [x]], other) == ListOf(store, other)
  {
  }

  /** `notifications.filter(n => !n.isDelivered)`. */
  function Pending(ns: seq<Notification>): (r: seq<Notification>)
    ensures |r| <= |ns|
    ensures forall n :: n in r <==> n in ns && !n.isDelivered
  {
    if ns == [] then []
    else Pending(ns[..|ns| - 1]) + (if ns[|ns| - 1].isDelivered then [] else [ns[|ns| - 1]])
  }

  /** A new, undelivered notification becomes the last pending one. */
  lemma {:induction false} PendingAppend(ns: seq<Notification>, n: Notification)
    ensures Pending(ns + [n]) == Pending(ns) + (if n.isDelivered then [] else [n])
  {
    assert (ns + [n])[..|ns|] == ns;
  }

  /** `find(n => n.id === id)`, as the index of the first match. */
  function FindNotification(ns: seq<Notification>, id: string): (r: Option<nat>)
    ensures r.Some? ==> r.value < |ns| && ns[r.value].id == id
    ensures r.Some? ==> forall j :: 0 <= j < r.value ==> ns[j].id != id
    ensures r.None? ==> forall j :: 0 <= j < |ns| ==> ns[j].id != id
  {
    if ns == [] then None
    else if ns[0].id == id then Some(0)
    else
      match FindNotification(ns[1..], id)
      case None => None
      case Some(i) => Some(i + 1)
  }

  function FindDocument(ds: seq<Document>, id: string): (r: Option<nat>)
    ensures r.Some? ==> r.value < |ds| && ds[r.value].id == id
    ensures r.Some? ==> forall j :: 0 <= j < r.value ==> ds[j].id != id
    ensures r.None? ==> forall j :: 0 <= j < |ds| ==> ds[j].id != id
  {
    if ds == [] then None
    else if ds[0].id == id then Some(0)
    else
      match FindDocument(ds[1..], id)
      case None => None
      case Some(i) => Some(i + 1)
  }

  /** Sets `isDelivered` and `deliveredAt` on one notification. */
  function MarkDelivered(ns: seq<Notification>, i: nat, now: string): (r: seq<Notification>)
    requires i < |ns|
    ensures |r| == |ns|
    ensures r[i] == ns[i].(isDelivered := true, deliveredAt := Some(now))
    ensures forall j :: 0 <= j < |ns| && j != i ==> r[j] == ns[j]
  {
    ns[i := ns[i].(isDelivered := true, deliveredAt := Some(now))]
  }

  /** Marking keeps every id, so a repeated mark-delivered finds the same notification and
      succeeds again. */
  lemma {:induction false} MarkKeepsLookup(ns: seq<Notification>, i: nat, now: string, id: string)
    requires i < |ns|
    ensures FindNotification(MarkDelivered(ns, i, now), id) == FindNotification(ns, id)
    decreases |ns|
  {
    var r := MarkDelivered(ns, i, now);
    if ns[0].id != id && i > 0 {
      assert r[1..] == MarkDelivered(ns[1..], i - 1, now);
      MarkKeepsLookup(ns[1..], i - 1, now, id);
    } else if ns[0].id != id {
      assert r[1..] == ns[1..];
    }
  }

  /** After marking, the pending list shrinks by exactly one entry when the notification
      was pending, and stays as long when it was already delivered. */
  lemma {:induction false} MarkRemovesFromPending(ns: seq<Notification>, i: nat, now: string)
    requires i < |ns|
    ensures |Pending(MarkDelivered(ns, i, now))| == |Pending(ns)| - (if ns[i].isDelivered then 0 else 1)
    decreases |ns|
  {
    var r := MarkDelivered(ns, i, now);
    var n := |ns| - 1;
    var init := ns[..n];
    var before := |Pending(init)|;
    assert |Pending(ns)| == before + (if ns[n].isDelivered then 0 else 1) by {
      assert ns == init + [ns[n]];
      PendingLast(ns, init, ns[n]);
    }
    if i == n {
      MarkDeliveredLast(ns, now);
      assert |Pending(r)| == before by {
        PendingLast(r, init, r[n]);
      }
    } else {
      MarkDeliveredPrefix(ns, i, now);
      var after := |Pending(MarkDelivered(init, i, now))|;
      assert after == before - (if ns[i].isDelivered then 0 else 1) by {
        MarkRemovesFromPending(init, i, now);
      }
      assert |Pending(r)| == after + (if ns[n].isDelivered then 0 else 1) by {
        PendingLast(r, MarkDelivered(init, i, now), ns[n]);
      }
    }
  }

  /** Marking the last entry leaves the entries before it alone. */
  lemma MarkDeliveredLast(ns: seq<Notification>, now: string)
    requires ns != []
    ensures MarkDelivered(ns, |ns| - 1, now) == ns[..|ns| - 1] + [MarkDelivered(ns, |ns| - 1, now)[|ns| - 1]]
    ensures MarkDelivered(ns, |ns| - 1, now)[|ns| - 1].isDelivered
  {
    var r := MarkDelivered(ns, |ns| - 1, now);
    assert r[..|ns| - 1] == ns[..|ns| - 1];
    assert r == r[..|ns| - 1] + [r[|ns| - 1]];
  }

  /** Marking an entry before the last one commutes with dropping the last one. */
  lemma MarkDeliveredPrefix(ns: seq<Notification>, i: nat, now: string)
    requires i < |ns| - 1
    ensures MarkDelivered(ns, i, now) == MarkDelivered(ns[..|ns| - 1], i, now) + [ns[|ns| - 1]]
    ensures ns[..|ns| - 1][i] == ns[i]
  {
    var r := MarkDelivered(ns, i, now);
    var s := MarkDelivered(ns[..|ns| - 1], i, now) + [ns[|ns| - 1]];
    assert |r| == |s|;
    forall j | 0 <= j < |r|
      ensures r[j] == s[j]
    {
      if j < |ns| - 1 && j != i {
        assert s[j] == ns[..|ns| - 1][j];
      }
    }
  }

  /** The pending count of a list, split at its last entry. */
  lemma PendingLast(ns: seq<Notification>, init: seq<Notification>, last: Notification)
    requires ns == init + [last]
    ensures |Pending(ns)| == |Pending(init)| + (if last.isDelivered then 0 else 1)
  {
    assert ns[..|ns| - 1] == init;
  }
}
