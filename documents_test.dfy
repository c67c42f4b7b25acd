/** The stateless test router: an upload is classified and answered with mock document
    and notification records but stored nowhere; the content endpoint answers every id
    with the same mock document. */
module DocumentsTest {
  import opened Wrappers
  import opened Strings
  import opened Http
  import opened DocumentPipeline

  const MockNotificationPrefix := "New document uploaded: "

  /** The mock document record: no metadata is kept. */
  datatype MockDocument = MockDocument(
    id: string,
    filename: string,
    fileType: string,
    fileSize: nat,
    uploadTimestamp: string,
    extractedCount: nat)

  datatype MockNotification = MockNotification(id: string, message: string)

  datatype MockUploadResponse = MockUploadResponse(
    document: MockDocument,
    notification: MockNotification,
    preview: string,
    message: string,
    documentType: DocumentType)

  /** `POST /upload` after the filter (`AcceptsMime`) and the size cap accepted the file. */
  function MockUpload(file: Option<UploadedFile>, extraction: Result<string, string>,
                      docId: string, notificationId: string, now: string): (r: Result<MockUploadResponse, HttpError>)
    ensures file.None? <==> r == Err(NoFileUploaded)
    ensures r.Ok? ==>
      var c := Classify(file.value.mimetype, extraction);
      && r.value.documentType == c.documentType
      && r.value.document == MockDocument(docId, file.value.filename, file.value.mimetype, file.value.size, now,
           ExtractedCount(c.extractedText))
      && r.value.message == UploadMessage(|c.extractedText|)
      && r.value.preview == Preview(c.extractedText)
      && r.value.notification == MockNotification(notificationId, MockNotificationPrefix + file.value.filename)
  {
    match file
    case None => Err(NoFileUploaded)
    case Some(f) =>
      var c := Classify(f.mimetype, extraction);
      var doc := MockDocument(docId, f.filename, f.mimetype, f.size, now, ExtractedCount(c.extractedText));
      Ok(MockUploadResponse(doc, MockNotification(notificationId, MockNotificationPrefix + f.filename),
        Preview(c.extractedText), UploadMessage(|c.extractedText|), c.documentType))
  }

  /** A successful read of an accepted file yields a typed document whose extracted count
      is 1 exactly when the file had text; a failed one yields an untyped document with
      count 1 (the diagnostic text). */
  lemma {:induction false} MockUploadClassifies(f: UploadedFile, extraction: Result<string, string>, docId: string, notificationId: string, now: string)
    requires AcceptsMime(f.mimetype)
    ensures var r := MockUpload(Some(f), extraction, docId, notificationId, now);
      && r.Ok?
      && (extraction.Ok? ==> r.value.documentType != UnknownDoc)
      && (extraction.Ok? ==> (r.value.document.extractedCount == 1 <==> extraction.value != ""))
      && (extraction.Err? ==> r.value.documentType == UnknownDoc && r.value.document.extractedCount == 1)
  {
    assert f.mimetype == PdfMime || ReadAsText(f.mimetype);
  }

  /** `GET /content/:documentId`: the requested id with fixed mock fields. */
  function MockContent(documentId: string, now: string): (v: ContentView)
    ensures v.id == documentId
    ensures v.filename == "Test Document.pdf" && v.fileType == PdfMime && v.documentType == PdfDoc
    ensures v.extractedText == "This is test document content for testing purposes." && v.fileSize == 1024
  {
    ContentView(documentId, "Test Document.pdf", PdfMime, now,
      "This is test document content for testing purposes.", PdfDoc, 1024)
  }
}
