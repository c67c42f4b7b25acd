/** The document endpoints defined directly on the server: the same pipeline as the
    in-memory router, but each store is a JSON file (absent until the first upload)
    holding a map from user id to that user's list. Two departures from the router as
    written: the upload filter rejects `application/json`, and the text extraction never
    succeeds because the callback-style file API is awaited without a callback. */
module ServerDocuments {
  import opened Wrappers
  import opened Strings
  import opened Js
  import opened Http
  import opened DocumentPipeline

  const NoDocumentsFound := HttpError(404, "No documents found")
  const DocumentNotFound := HttpError(404, "Document not found")
  const NoNotificationsFound := HttpError(404, "No notifications found")
  const NotificationNotFound := HttpError(404, "Notification not found")

  /** The server's upload filter as written: its third test repeats a case of the second
      instead of admitting JSON. */
  predicate ServerAcceptsMime(mimetype: string) {
    mimetype == PdfMime || Contains(mimetype, "text") || mimetype == "text/plain"
  }

  /** The server's filter admits exactly PDF and types mentioning `text`; unlike the
      router's filter it rejects `application/json`, which its own rejection message
      lists as allowed. */
  lemma ServerRejectsJson(mimetype: string)
    ensures ServerAcceptsMime(mimetype) <==> mimetype == PdfMime || Contains(mimetype, "text")
    ensures !ServerAcceptsMime(JsonMime) && AcceptsMime(JsonMime)
  {
    assert MatchAt("text/plain", "text", 0);
    JsonAccepted();
  }

  /** Every file the server admits is classified `unknown` with a failure diagnostic and
      an extracted count of 1, whatever its content: the read always throws. */
  lemma {:induction false} ServerExtractionAlwaysFails(mimetype: string, readError: string)
    requires ServerAcceptsMime(mimetype)
    ensures var c := Classify(mimetype, Err(readError));
      && c.documentType == UnknownDoc
      && ExtractedCount(c.extractedText) == 1
      && (StartsWith(c.extractedText, PdfFailurePrefix) || StartsWith(c.extractedText, TextFailurePrefix))
  {
    ServerRejectsJson(mimetype);
    var c := Classify(mimetype, Err(readError));
    if mimetype == PdfMime {
      assert c.extractedText[..|PdfFailurePrefix|] == PdfFailurePrefix;
    } else {
      assert ReadAsText(mimetype);
      assert c.extractedText[..|TextFailurePrefix|] == TextFailurePrefix;
    }
  }

  class FileBackedDocuments {
    /** `uploads/user-documents.json`, or `None` while the file does not exist. */
    var documentsFile: Option<map<string, seq<Document>>>
    /** `uploads/user-notifications.json`, or `None` while the file does not exist. */
    var notificationsFile: Option<map<string, seq<Notification>>>

    constructor ()
      ensures documentsFile == None && notificationsFile == None
    {
      documentsFile := None;
      notificationsFile := None;
    }

    /** `POST /api/documents/upload`, reached only after `ServerAcceptsMime` and the size
        cap accepted the file. `readError` is the message of the error the read throws. */
    method Upload(userQuery: Option<string>, file: Option<UploadedFile>, readError: string,
                  docId: string, notificationId: string, now: string)
      returns (res: Result<UploadResponse, HttpError>)
      modifies this
      ensures file.None? ==>
        res == Err(NoFileUploaded) && documentsFile == old(documentsFile) && notificationsFile == old(notificationsFile)
      ensures file.Some? ==>
        var user := EffectiveUser(userQuery);
        var c := Classify(file.value.mimetype, Err(readError));
        var doc := BuildDocument(file.value, c, docId, now);
        var n := BuildNotification(notificationId, doc, user, now);
        var docs := old(documentsFile).GetOr(map[]);
        var notes := old(notificationsFile).GetOr(map[]);
        && res == Ok(BuildResponse(doc, n, c))
        && documentsFile == Some(docs[user := ListOf(docs, user) + [doc]])
        && notificationsFile == Some(notes[user := ListOf(notes, user) + [n]])
    {
      var user := EffectiveUser(userQuery);
      if file.None? {
        return Err(NoFileUploaded);
      }
      var f := file.value;
      var c := Classify(f.mimetype, Err(readError));
      var doc := BuildDocument(f, c, docId, now);
      var docs := if documentsFile.Some? then documentsFile.value else map[];
      var userDocs := if user in docs then docs[user] else [];
      docs := docs[user := userDocs + [doc]];
      documentsFile := Some(docs);
      var n := BuildNotification(notificationId, doc, user, now);
      var notes := if notificationsFile.Some? then notificationsFile.value else map[];
      var userNotes := if user in notes then notes[user] else [];
      notes := notes[user := userNotes + [n]];
      notificationsFile := Some(notes);
      res := Ok(BuildResponse(doc, n, c));
    }

    /** `GET /api/documents/notifications/:userId`: the user's undelivered notifications;
        no store yet means none. */
    method PendingNotifications(userId: string) returns (pending: seq<Notification>)
      ensures notificationsFile.None? ==> pending == []
      ensures notificationsFile.Some? ==> pending == Pending(ListOf(notificationsFile.value, userId))
      ensures forall n :: n in pending ==> !n.isDelivered
    {
      if notificationsFile.None? {
        return [];
      }
      pending := Pending(ListOf(notificationsFile.value, userId));
    }

    /** `GET /api/documents/content/:documentId`. */
    method Content(documentId: string, userQuery: Option<string>) returns (res: Result<ContentView, HttpError>)
      ensures documentsFile.None? ==> res == Err(NoDocumentsFound)
      ensures documentsFile.Some? ==>
        var docs := ListOf(documentsFile.value, EffectiveUser(userQuery));
        && (res.Err? <==> forall j :: 0 <= j < |docs| ==> docs[j].id != documentId)
        && (res.Err? ==> res.error == DocumentNotFound)
        && (res.Ok? ==> exists j :: (0 <= j < |docs| && docs[j].id == documentId
              && (forall k :: 0 <= k < j ==> docs[k].id != documentId) && res.value == ContentOf(docs[j])))
    {
      if documentsFile.None? {
        return Err(NoDocumentsFound);
      }
      var docs := ListOf(documentsFile.value, EffectiveUser(userQuery));
      match FindDocument(docs, documentId) {
        case None =>
          res := Err(DocumentNotFound);
        case Some(i) =>
          res := Ok(ContentOf(docs[i]));
      }
    }

    /** `PUT /api/documents/notifications/:notificationId/delivered`: marks the first of
        the user's notifications with that id and rewrites the store; nothing else
        changes. */
    method MarkNotificationDelivered(notificationId: string, userQuery: Option<string>, now: string)
      returns (res: Result<Notification, HttpError>)
      modifies this
      ensures old(notificationsFile).None? ==> res == Err(NoNotificationsFound) && notificationsFile == None
      ensures old(notificationsFile).Some? ==>
        var user := EffectiveUser(userQuery);
        var notes := old(notificationsFile).value;
        var ns := ListOf(notes, user);
        match FindNotification(ns, notificationId)
        case None =>
          res == Err(NotificationNotFound) && notificationsFile == old(notificationsFile)
        case Some(i) =>
          && res == Ok(MarkDelivered(ns, i, now)[i])
          && notificationsFile == Some(notes[user := MarkDelivered(ns, i, now)])
      ensures documentsFile == old(documentsFile)
    {
      if notificationsFile.None? {
        return Err(NoNotificationsFound);
      }
      var user := EffectiveUser(userQuery);
      var notes := notificationsFile.value;
      var ns := ListOf(notes, user);
      match FindNotification(ns, notificationId) {
        case None =>
          res := Err(NotificationNotFound);
        case Some(i) =>
          var marked := MarkDelivered(ns, i, now);
          notificationsFile := Some(notes[user := marked]);
          res := Ok(marked[i]);
      }
    }
  }
}
