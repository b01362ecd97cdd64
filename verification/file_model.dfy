/**
 * The File document of the record store (src/models/File.ts): the text form of
 * record ids, the status enum with its default, the required fields and the
 * way a document is validated and completed with defaults when it is saved.
 */
module FileModel {

  import opened Wrappers

  /** A lower-case hexadecimal digit. */
  predicate IsHexDigit(c: char) {
    '0' <= c <= '9' || 'a' <= c <= 'f'
  }

  /** The text form of a record id (`${file._id}`): 24 lower-case hexadecimal digits. */
  type ObjectId = s: string | |s| == 24 && forall i :: 0 <= i < |s| ==> IsHexDigit(s[i])
    witness "000000000000000000000000"

  /** The store's clock reading, an opaque number of milliseconds. */
  type Timestamp = int

  /** The lifecycle status; `Processing` is declared by the schema but set by no flow. */
  datatype Status = Pending | Processing | Completed

  /** The string the schema's enum stores for a status. */
  function StatusName(s: Status): string {
    match s
    case Pending => "pending"
    case Processing => "processing"
    case Completed => "completed"
  }

  /** The enum validator: exactly the three names are accepted, each as its own status. */
  function ParseStatus(name: string): (r: Option<Status>)
    ensures r.Some? ==> StatusName(r.value) == name
    ensures r.None? ==> forall s: Status :: StatusName(s) != name
  {
    if name == "pending" then Some(Pending)
    else if name == "processing" then Some(Processing)
    else if name == "completed" then Some(Completed)
    else None
  }

  lemma ParseStatusName(s: Status)
    ensures ParseStatus(StatusName(s)) == Some(s)
  {
  }

  /** Position of a status along pending -> processing -> completed. */
  function Rank(s: Status): nat {
    match s
    case Pending => 0
    case Processing => 1
    case Completed => 2
  }

  /** A stored File document. */
  datatype FileRecord = FileRecord(
    id: ObjectId,
    userId: ObjectId,
    url: string,
    filename: string,
    fileType: string,
    uploadDate: Timestamp,
    status: Status)

  /**
   * A string field is set and non-empty: what Mongoose's `required` accepts,
   * and what a JavaScript truthiness test accepts of a string.
   */
  predicate Present(field: Option<string>) {
    field.Some? && field.value != ""
  }

  /** The schema's constraints on a stored document: the required strings are non-empty. */
  predicate ValidFile(f: FileRecord) {
    f.url != "" && f.filename != "" && f.fileType != ""
  }

  /** The fields handed to `new FileModel({...})`; any of them may be absent. */
  datatype FileDraft = FileDraft(
    userId: Option<ObjectId>,
    url: Option<string>,
    filename: Option<string>,
    fileType: Option<string>,
    uploadDate: Option<Timestamp>,
    status: Option<string>)

  /**
   * Validation on save: `userId`, `url`, `filename` and `fileType` are required,
   * `status` must be one of the enum's names; then `status` defaults to pending
   * and `uploadDate` to the clock reading `now`.
   */
  function Validate(id: ObjectId, d: FileDraft, now: Timestamp): (r: Option<FileRecord>)
    ensures r.Some? <==>
      d.userId.Some? && Present(d.url) && Present(d.filename) && Present(d.fileType) &&
      (d.status.None? || ParseStatus(d.status.value).Some?)
    ensures r.Some? ==> ValidFile(r.value) && r.value.id == id && Some(r.value.userId) == d.userId
    ensures r.Some? ==>
      Some(r.value.url) == d.url && Some(r.value.filename) == d.filename && Some(r.value.fileType) == d.fileType
    ensures r.Some? && d.status.None? ==> r.value.status == Pending
    ensures r.Some? && d.status.Some? ==> StatusName(r.value.status) == d.status.value
    ensures r.Some? && d.uploadDate.None? ==> r.value.uploadDate == now
    ensures r.Some? && d.uploadDate.Some? ==> r.value.uploadDate == d.uploadDate.value
  {
    if d.userId.Some? && Present(d.url) && Present(d.filename) && Present(d.fileType) then
      var status := if d.status.None? then Some(Pending) else ParseStatus(d.status.value);
      if status.None? then None
      else
        Some(FileRecord(
          id, d.userId.value, d.url.value, d.filename.value, d.fileType.value,
          if d.uploadDate.Some? then d.uploadDate.value else now,
          status.value))
    else
      None
  }

}
