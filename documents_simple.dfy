/** The in-memory document router: two maps from user id to that user's documents and
    notifications, appended to by uploads and updated in place by mark-delivered. Reading
    a user's list installs an empty one when the user has none yet. */
module DocumentsSimple {
  import opened Wrappers
  import opened Js
  import opened Http
  import opened DocumentPipeline

  const DocumentNotFound := HttpError(404, "Document not found")
  const NotificationNotFound := HttpError(404, "Notification not found")

  class SimpleDocumentStore {
    var documentStore: map<string, seq<Document>>
    var notificationStore: map<string, seq<Notification>>

    constructor ()
      ensures documentStore == map[] && notificationStore == map[]
    {
      documentStore := map[];
      notificationStore := map[];
    }

    /** `getUserDocuments`: the user's list, installing an empty one if absent. */
    method GetUserDocuments(userId: string) returns (docs: seq<Document>)
      modifies this
      ensures docs == ListOf(old(documentStore), userId)
      ensures documentStore == old(documentStore)[userId := docs]
      ensures notificationStore == old(notificationStore)
    {
      if userId !in documentStore {
        documentStore := documentStore[userId := []];
      }
      docs := documentStore[userId];
    }

    /** `getUserNotifications`: the user's list, installing an empty one if absent. */
    method GetUserNotifications(userId: string) returns (ns: seq<Notification>)
      modifies this
      ensures ns == ListOf(old(notificationStore), userId)
      ensures notificationStore == old(notificationStore)[userId := ns]
      ensures documentStore == old(documentStore)
    {
      if userId !in notificationStore {
        notificationStore := notificationStore[userId := []];
      }
      ns := notificationStore[userId];
    }

    /** `POST /upload`, reached only after the filter and the size cap accepted the file
        (`AcceptsMime`, `Screen`). `extraction` is what reading the file produced;
        `docId`, `notificationId` and `now` stand for the generated ids and time. */
    method Upload(userQuery: Option<string>, file: Option<UploadedFile>, extraction: Result<string, string>,
                  docId: string, notificationId: string, now: string)
      returns (res: Result<UploadResponse, HttpError>)
      modifies this
      ensures file.None? ==>
        res == Err(NoFileUploaded) && documentStore == old(documentStore) && notificationStore == old(notificationStore)
      ensures file.Some? ==>
        var user := EffectiveUser(userQuery);
        var c := Classify(file.value.mimetype, extraction);
        var doc := BuildDocument(file.value, c, docId, now);
        var n := BuildNotification(notificationId, doc, user, now);
        && res == Ok(BuildResponse(doc, n, c))
        && documentStore == old(documentStore)[user := ListOf(old(documentStore), user) + [doc]]
        && notificationStore == old(notificationStore)[user := ListOf(old(notificationStore), user) + [n]]
    {
      var user := EffectiveUser(userQuery);
      if file.None? {
        return Err(NoFileUploaded);
      }
      var f := file.value;
      var c := Classify(f.mimetype, extraction);
      var doc := BuildDocument(f, c, docId, now);
      var docs := GetUserDocuments(user);
      documentStore := documentStore[user := docs + [doc]];
      assert documentStore == old(documentStore)[user := ListOf(old(documentStore), user) + [doc]];
      var n := BuildNotification(notificationId, doc, user, now);
      var ns := GetUserNotifications(user);
      notificationStore := notificationStore[user := ns + [n]];
      assert notificationStore == old(notificationStore)[user := ListOf(old(notificationStore), user) + [n]];
      res := Ok(BuildResponse(doc, n, c));
    }

    /** `GET /content/:documentId`: the first of the user's documents with that id. */
    method Content(documentId: string, userQuery: Option<string>) returns (res: Result<ContentView, HttpError>)
      modifies this
      ensures var docs := ListOf(old(documentStore), EffectiveUser(userQuery));
        && (res.Err? <==> forall j :: 0 <= j < |docs| ==> docs[j].id != documentId)
        && (res.Err? ==> res.error == DocumentNotFound)
        && (res.Ok? ==> exists j :: (0 <= j < |docs| && docs[j].id == documentId
              && (forall k :: 0 <= k < j ==> docs[k].id != documentId) && res.value == ContentOf(docs[j])))
      ensures documentStore == old(documentStore)[EffectiveUser(userQuery) := ListOf(old(documentStore), EffectiveUser(userQuery))]
      ensures notificationStore == old(notificationStore)
    {
      var docs := GetUserDocuments(EffectiveUser(userQuery));
      match FindDocument(docs, documentId) {
        case None =>
          res := Err(DocumentNotFound);
        case Some(i) =>
          res := Ok(ContentOf(docs[i]));
      }
    }

    /** `GET /notifications/:userId`: the user's undelivered notifications, in order. */
    method PendingNotifications(userId: string) returns (pending: seq<Notification>)
      modifies this
      ensures pending == Pending(ListOf(old(notificationStore), userId))
      ensures notificationStore == old(notificationStore)[userId := ListOf(old(notificationStore), userId)]
      ensures documentStore == old(documentStore)
    {
      var ns := GetUserNotifications(userId);
      pending := Pending(ns);
    }

    /** `PUT /notifications/:notificationId/delivered`: marks the first of the user's
        notifications with that id, changing no other notification. */
    method MarkNotificationDelivered(notificationId: string, userQuery: Option<string>, now: string)
      returns (res: Result<Notification, HttpError>)
      modifies this
      ensures var user := EffectiveUser(userQuery);
        var ns := ListOf(old(notificationStore), user);
        match FindNotification(ns, notificationId)
        case None =>
          && res == Err(NotificationNotFound)
          && notificationStore == old(notificationStore)[user := ns]
        case Some(i) =>
          && res == Ok(MarkDelivered(ns, i, now)[i])
          && notificationStore == old(notificationStore)[user := MarkDelivered(ns, i, now)]
      ensures documentStore == old(documentStore)
    {
      var user := EffectiveUser(userQuery);
      var ns := GetUserNotifications(user);
      match FindNotification(ns, notificationId) {
        case None =>
          res := Err(NotificationNotFound);
        case Some(i) =>
          var marked := MarkDelivered(ns, i, now);
          notificationStore := notificationStore[user := marked];
          res := Ok(marked[i]);
      }
    }

    /** `GET /user/:userId`: all of the user's documents. */
    method UserDocuments(userId: string) returns (docs: seq<Document>)
      modifies this
      ensures docs == ListOf(old(documentStore), userId)
      ensures documentStore == old(documentStore)[userId := docs]
      ensures notificationStore == old(notificationStore)
    {
      docs := GetUserDocuments(userId);
    }
  }

  /** An upload followed by a lookup of the pending notifications shows the new
      notification last, after the ones that were already pending. */
  lemma {:induction false} UploadedNotificationIsPending(store: map<string, seq<Notification>>, user: string, n: Notification)
    requires !n.isDelivered
    ensures Pending(ListOf(store[user := ListOf(store, user) + [n]], user)) == Pending(ListOf(store, user)) + [n]
  {
    PendingAppend(ListOf(store, user), n);
  }
}
