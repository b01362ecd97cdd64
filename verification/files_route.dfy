/**
 * The upload intake route (src/app/api/files/route.ts). Its checks run in a
 * fixed order: a signed-in caller, then a parsable body with non-empty `url`,
 * `filename` and `fileType`, then a User for the caller's email. It then saves
 * a pending File owned by that user and pushes the new id onto the user's
 * `files` list. The connection, the user lookup, the save and the push may
 * each throw, which the handler turns into 500: the failing call is an input,
 * `fault`, and the store's generated id is `newId`.
 */
module FilesRoute {

  import opened Wrappers
  import opened FileModel
  import opened UserModel
  import opened Http
  import opened Store

  /** The JSON body `{ url, filename, fileType }`; any field may be missing. */
  datatype IntakeBody = IntakeBody(url: Option<string>, filename: Option<string>, fileType: Option<string>)

  /** The route's check `!url || !filename || !fileType` passes. */
  predicate HasRequiredFields(b: IntakeBody) {
    Present(b.url) && Present(b.filename) && Present(b.fileType)
  }

  /** The store call that throws, if any: the connection, the user lookup, the save or the push. */
  datatype StoreFault = NoFault | ConnectFails | FindFails | SaveFails | PushFails

  /** The document the route builds, with `status: 'pending'` and `uploadDate: new Date()`. */
  function NewFileDraft(uid: ObjectId, b: IntakeBody, now: Timestamp): FileDraft {
    FileDraft(Some(uid), b.url, b.filename, b.fileType, Some(now), Some("pending"))
  }

  /** A body that passes the route's check always passes the schema, as a pending file of that user. */
  lemma ValidatedBodySaves(id: ObjectId, uid: ObjectId, b: IntakeBody, now: Timestamp)
    requires HasRequiredFields(b)
    ensures Validate(id, NewFileDraft(uid, b, now), now) ==
      Some(FileRecord(id, uid, b.url.value, b.filename.value, b.fileType.value, now, Pending))
  {
  }

  /** The request gets past every check that precedes the user lookup. */
  predicate Checked(email: Option<string>, body: Option<IntakeBody>, fault: StoreFault) {
    SignedIn(email) && fault != ConnectFails && body.Some? && HasRequiredFields(body.value)
  }

  /** The request reaches a user lookup that answers. */
  predicate Admitted(email: Option<string>, body: Option<IntakeBody>, fault: StoreFault) {
    Checked(email, body, fault) && fault != FindFails
  }

  /** POST /api/files. */
  method PostFile(db: Database, email: Option<string>, body: Option<IntakeBody>, newId: ObjectId,
                  now: Timestamp, fault: StoreFault) returns (reply: Reply<FileRecord>)
    requires db.Valid()
    modifies db
    ensures db.Valid()
    ensures !SignedIn(email) ==>
      reply == Unauthorized && db.users == old(db.users) && db.files == old(db.files)
    ensures SignedIn(email) && (fault == ConnectFails || body.None?) ==>
      reply == ServerError && db.users == old(db.users) && db.files == old(db.files)
    ensures SignedIn(email) && fault != ConnectFails && body.Some? && !HasRequiredFields(body.value) ==>
      reply == BadRequest && db.users == old(db.users) && db.files == old(db.files)
    ensures Checked(email, body, fault) && fault == FindFails ==>
      reply == ServerError && db.users == old(db.users) && db.files == old(db.files)
    ensures Admitted(email, body, fault) && FindByEmail(old(db.users), email.value).None? ==>
      reply == NotFound && db.users == old(db.users) && db.files == old(db.files)
    ensures Admitted(email, body, fault) && FindByEmail(old(db.users), email.value).Some? ==>
      var u := FindByEmail(old(db.users), email.value).value;
      var b := body.value;
      var f := FileRecord(newId, u.id, b.url.value, b.filename.value, b.fileType.value, now, Pending);
      if fault == SaveFails || newId in FileIds(old(db.files)) then
        reply == ServerError && db.users == old(db.users) && db.files == old(db.files)
      else
        && db.files == old(db.files) + [f]
        && (fault == PushFails ==> reply == ServerError && db.users == old(db.users))
        && (fault == NoFault ==> reply == Ok(201, f) && db.users == PushFile(old(db.users), u.id, newId))
  {
    if !SignedIn(email) {
      return Unauthorized;
    }
    if fault == ConnectFails || body.None? {
      return ServerError;
    }
    var b := body.value;
    if !HasRequiredFields(b) {
      return BadRequest;
    }
    if fault == FindFails {
      return ServerError;
    }
    var user := FindByEmail(db.users, email.value);
    if user.None? {
      return NotFound;
    }
    var u := user.value;
    ValidatedBodySaves(newId, u.id, b, now);
    var f := Validate(newId, NewFileDraft(u.id, b, now), now).value;
    if fault == SaveFails {
      return ServerError;
    }
    ghost var before := db.files;
    var saved := db.Insert(f);
    if !saved {
      return ServerError;
    }
    InsertKeepsStoreValid(db.users, before, f);
    if fault == PushFails {
      return ServerError;
    }
    OwnerOfAppend(old(db.files), f, f.id);
    PushKeepsStoreValid(db.users, db.files, u.id, f.id);
    db.Link(u.id, f.id);
    reply := Ok(201, f);
  }

  /**
   * A saved upload shows up in its owner's pending listing, after the files
   * that were there, and in no other user's.
   */
  lemma {:induction false} SavedFileIsListed(files: seq<FileRecord>, f: FileRecord, other: ObjectId)
    requires f.status == Pending && other != f.userId
    ensures PendingOf(files + [f], f.userId) == PendingOf(files, f.userId) + [f]
    ensures PendingOf(files + [f], other) == PendingOf(files, other)
  {
    PendingOfAppend(files, [f], f.userId);
    PendingOfAppend(files, [f], other);
    assert [f][1..] == [];
  }

}
