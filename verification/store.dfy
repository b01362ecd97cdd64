/**
 * The record store and the staging area as the routes use them: the queries
 * `find({ userId, status: 'pending' })` and `findOne({ email })`, the writes
 * `save`, `$push` and `updateMany`, and the public directory that holds the
 * staged copies. The store's invariant ties each user's `files` list to the
 * File documents: every listed id names a file that user owns.
 */
module Store {

  import opened Wrappers
  import opened FileModel
  import opened UserModel

  type Bytes = seq<bv8>

  /** The query `{ userId: uid, status: 'pending' }`. */
  predicate Selects(f: FileRecord, uid: ObjectId) {
    f.userId == uid && f.status == Pending
  }

  /** The documents the query selects, in store order. */
  function PendingOf(files: seq<FileRecord>, uid: ObjectId): (r: seq<FileRecord>)
    ensures |r| <= |files|
    ensures forall f :: f in r <==> f in files && Selects(f, uid)
  {
    if files == [] then []
    else (if Selects(files[0], uid) then [files[0]] else []) + PendingOf(files[1..], uid)
  }

  /** The query keeps store order: selecting from a concatenation concatenates the selections. */
  lemma {:induction false} PendingOfAppend(a: seq<FileRecord>, b: seq<FileRecord>, uid: ObjectId)
    ensures PendingOf(a + b, uid) == PendingOf(a, uid) + PendingOf(b, uid)
  {
    if a == [] {
      assert a + b == b;
    } else {
      assert (a + b)[1..] == a[1..] + b;
      PendingOfAppend(a[1..], b, uid);
    }
  }

  function FileIds(files: seq<FileRecord>): set<ObjectId> {
    set i | 0 <= i < |files| :: files[i].id
  }

  /** The unique index on `_id`. */
  predicate UniqueFileIds(files: seq<FileRecord>) {
    forall i, j :: 0 <= i < j < |files| ==> files[i].id != files[j].id
  }

  /** With unique ids the query returns each selected document exactly once. */
  lemma {:induction false} PendingOfUnique(files: seq<FileRecord>, uid: ObjectId)
    requires UniqueFileIds(files)
    ensures UniqueFileIds(PendingOf(files, uid))
  {
    if files != [] {
      var rest := PendingOf(files[1..], uid);
      PendingOfUnique(files[1..], uid);
      forall j | 0 <= j < |rest|
        ensures rest[j].id != files[0].id
      {
        assert rest[j] in files[1..];
      }
    }
  }

  /** `updateMany({ userId: uid, status: 'pending' }, { $set: { status: 'completed' } })`. */
  function CompleteAll(files: seq<FileRecord>, uid: ObjectId): (r: seq<FileRecord>)
    ensures |r| == |files|
    ensures forall i :: 0 <= i < |files| && Selects(files[i], uid) ==>
      r[i] == files[i].(status := Completed)
    ensures forall i :: 0 <= i < |files| && !Selects(files[i], uid) ==> r[i] == files[i]
  {
    if files == [] then []
    else
      [if Selects(files[0], uid) then files[0].(status := Completed) else files[0]] +
      CompleteAll(files[1..], uid)
  }

  /** The update only moves a status forward along the lifecycle. */
  lemma CompleteAllNeverRegresses(files: seq<FileRecord>, uid: ObjectId, i: nat)
    requires i < |files|
    ensures Rank(files[i].status) <= Rank(CompleteAll(files, uid)[i].status)
  {
  }

  /**
   * An `updateMany` that failed: the server completed the selected documents
   * whose id is in `applied` before the error (all of them, when only the reply
   * was lost). Each document is updated on its own, so any subset can result.
   */
  function CompleteSome(files: seq<FileRecord>, uid: ObjectId, applied: set<ObjectId>): (r: seq<FileRecord>)
    ensures |r| == |files|
    ensures forall i :: 0 <= i < |files| && Selects(files[i], uid) && files[i].id in applied ==>
      r[i] == files[i].(status := Completed)
    ensures forall i :: 0 <= i < |files| && !(Selects(files[i], uid) && files[i].id in applied) ==>
      r[i] == files[i]
  {
    if files == [] then []
    else
      [if Selects(files[0], uid) && files[0].id in applied then files[0].(status := Completed) else files[0]] +
      CompleteSome(files[1..], uid, applied)
  }

  /** Every document after a failed update is as before or as the full update leaves it. */
  lemma CompleteSomeBetween(files: seq<FileRecord>, uid: ObjectId, applied: set<ObjectId>, i: nat)
    requires i < |files|
    ensures CompleteSome(files, uid, applied)[i] in {files[i], CompleteAll(files, uid)[i]}
  {
  }

  /** When every document was reached, the failed update did all the full one does. */
  lemma {:induction false} CompleteSomeAll(files: seq<FileRecord>, uid: ObjectId, applied: set<ObjectId>)
    requires FileIds(files) <= applied
    ensures CompleteSome(files, uid, applied) == CompleteAll(files, uid)
  {
    var r := CompleteSome(files, uid, applied);
    forall i | 0 <= i < |files| ensures r[i] == CompleteAll(files, uid)[i] {
      assert files[i].id in FileIds(files);
    }
  }

  /** After the update the query finds nothing for that user. */
  lemma CompleteAllLeavesNonePending(files: seq<FileRecord>, uid: ObjectId)
    ensures PendingOf(CompleteAll(files, uid), uid) == []
  {
  }

  /** A second update changes nothing. */
  lemma CompleteAllIdempotent(files: seq<FileRecord>, uid: ObjectId)
    ensures CompleteAll(CompleteAll(files, uid), uid) == CompleteAll(files, uid)
  {
  }

  /** The update touches no other user's pending files. */
  lemma {:induction false} CompleteAllKeepsOthersPending(files: seq<FileRecord>, uid: ObjectId, other: ObjectId)
    requires other != uid
    ensures PendingOf(CompleteAll(files, uid), other) == PendingOf(files, other)
  {
    if files != [] {
      assert CompleteAll(files, uid)[1..] == CompleteAll(files[1..], uid);
      CompleteAllKeepsOthersPending(files[1..], uid, other);
    }
  }

  /** The owner of the document with id `id`, if there is one. */
  function OwnerOf(files: seq<FileRecord>, id: ObjectId): (r: Option<ObjectId>)
    ensures r.None? <==> id !in FileIds(files)
  {
    if files == [] then None
    else if files[0].id == id then Some(files[0].userId)
    else
      assert FileIds(files) == {files[0].id} + FileIds(files[1..]) by {
        forall x | x in FileIds(files) ensures x in {files[0].id} + FileIds(files[1..]) {
          var i :| 0 <= i < |files| && files[i].id == x;
          if i > 0 { assert files[1..][i - 1].id == x; }
        }
      }
      OwnerOf(files[1..], id)
  }

  lemma {:induction false} OwnerOfStored(files: seq<FileRecord>, i: nat)
    requires UniqueFileIds(files) && i < |files|
    ensures OwnerOf(files, files[i].id) == Some(files[i].userId)
  {
    if i > 0 {
      assert files[1..][i - 1] == files[i];
      OwnerOfStored(files[1..], i - 1);
    }
  }

  lemma {:induction false} OwnerOfAppend(files: seq<FileRecord>, f: FileRecord, id: ObjectId)
    ensures OwnerOf(files + [f], id) == if id in FileIds(files) then OwnerOf(files, id) else
      if id == f.id then Some(f.userId) else None
  {
    if files == [] {
      assert files + [f] == [f];
    } else {
      assert (files + [f])[1..] == files[1..] + [f];
      OwnerOfAppend(files[1..], f, id);
      if files[0].id != id {
        assert id in FileIds(files) <==> id in FileIds(files[1..]) by {
          if id in FileIds(files) {
            var i :| 0 <= i < |files| && files[i].id == id;
            assert files[1..][i - 1].id == id;
          }
          if id in FileIds(files[1..]) {
            var i :| 0 <= i < |files[1..]| && files[1..][i].id == id;
            assert files[i + 1].id == id;
          }
        }
      }
    }
  }

  /** The update changes no document's id or owner. */
  lemma {:induction false} CompleteAllKeepsOwners(files: seq<FileRecord>, uid: ObjectId, id: ObjectId)
    ensures OwnerOf(CompleteAll(files, uid), id) == OwnerOf(files, id)
  {
    if files != [] {
      assert CompleteAll(files, uid)[1..] == CompleteAll(files[1..], uid);
      CompleteAllKeepsOwners(files[1..], uid, id);
    }
  }

  /** Every id in a user's `files` list names a document that user owns. */
  predicate IndexConsistent(users: seq<User>, files: seq<FileRecord>) {
    forall i, k :: 0 <= i < |users| && 0 <= k < |users[i].files| ==>
      OwnerOf(files, users[i].files[k]) == Some(users[i].id)
  }

  /** The store's invariant: both schemas, both unique indexes and the consistent index. */
  predicate StoreValid(users: seq<User>, files: seq<FileRecord>) {
    && UniqueEmails(users)
    && UniqueUserIds(users)
    && (forall i :: 0 <= i < |users| ==> ValidUser(users[i]))
    && UniqueFileIds(files)
    && (forall i :: 0 <= i < |files| ==> ValidFile(files[i]))
    && IndexConsistent(users, files)
  }

  /** Saving a valid document under a fresh id keeps the invariant. */
  lemma InsertKeepsStoreValid(users: seq<User>, files: seq<FileRecord>, f: FileRecord)
    requires StoreValid(users, files) && f.id !in FileIds(files) && ValidFile(f)
    ensures StoreValid(users, files + [f])
  {
    forall i, k | 0 <= i < |users| && 0 <= k < |users[i].files|
      ensures OwnerOf(files + [f], users[i].files[k]) == Some(users[i].id)
    {
      OwnerOfAppend(files, f, users[i].files[k]);
    }
    var fs := files + [f];
    forall i, j | 0 <= i < j < |fs| ensures fs[i].id != fs[j].id {
      if j == |files| {
        assert files[i].id in FileIds(files);
      }
    }
  }

  /** Pushing the id of a document a user owns onto that user's list keeps the invariant. */
  lemma PushKeepsStoreValid(users: seq<User>, files: seq<FileRecord>, uid: ObjectId, fid: ObjectId)
    requires StoreValid(users, files) && OwnerOf(files, fid) == Some(uid)
    ensures StoreValid(PushFile(users, uid, fid), files)
  {
    var us := PushFile(users, uid, fid);
    forall i, k | 0 <= i < |us| && 0 <= k < |us[i].files|
      ensures OwnerOf(files, us[i].files[k]) == Some(us[i].id)
    {
      if users[i].id == uid && k == |users[i].files| {
        assert us[i].files[k] == fid;
      } else {
        assert us[i].files[k] == users[i].files[k];
      }
    }
  }

  /** The bulk update keeps the invariant. */
  lemma CompleteAllKeepsStoreValid(users: seq<User>, files: seq<FileRecord>, uid: ObjectId)
    requires StoreValid(users, files)
    ensures StoreValid(users, CompleteAll(files, uid))
  {
    forall i, k | 0 <= i < |users| && 0 <= k < |users[i].files|
      ensures OwnerOf(CompleteAll(files, uid), users[i].files[k]) == Some(users[i].id)
    {
      CompleteAllKeepsOwners(files, uid, users[i].files[k]);
    }
  }

  /** Setting statuses only, whichever documents it reaches, changes no document's owner. */
  lemma {:induction false} StatusOnlyKeepsOwners(files: seq<FileRecord>, files': seq<FileRecord>, id: ObjectId)
    requires |files'| == |files|
    requires forall i :: 0 <= i < |files| ==> files'[i] == files[i].(status := files'[i].status)
    ensures OwnerOf(files', id) == OwnerOf(files, id)
  {
    if files != [] {
      StatusOnlyKeepsOwners(files[1..], files'[1..], id);
    }
  }

  /** A partial update keeps the invariant. */
  lemma CompleteSomeKeepsStoreValid(users: seq<User>, files: seq<FileRecord>, uid: ObjectId, applied: set<ObjectId>)
    requires StoreValid(users, files)
    ensures StoreValid(users, CompleteSome(files, uid, applied))
  {
    var r := CompleteSome(files, uid, applied);
    forall i, k | 0 <= i < |users| && 0 <= k < |users[i].files|
      ensures OwnerOf(r, users[i].files[k]) == Some(users[i].id)
    {
      StatusOnlyKeepsOwners(files, r, users[i].files[k]);
    }
  }

  /** The User and File collections. */
  class Database {
    var users: seq<User>
    var files: seq<FileRecord>

    ghost predicate Valid()
      reads this
    {
      StoreValid(users, files)
    }

    constructor (users: seq<User>, files: seq<FileRecord>)
      requires StoreValid(users, files)
      ensures Valid()
      ensures this.users == users && this.files == files
    {
      this.users := users;
      this.files := files;
    }

    /** `save()` of a new document; the unique `_id` index refuses a taken id. */
    method Insert(f: FileRecord) returns (saved: bool)
      modifies this
      ensures saved <==> f.id !in FileIds(old(files))
      ensures files == if saved then old(files) + [f] else old(files)
      ensures users == old(users)
    {
      saved := f.id !in FileIds(files);
      if saved {
        files := files + [f];
      }
    }

    /** `findByIdAndUpdate(uid, { $push: { files: fid } })`. */
    method Link(uid: ObjectId, fid: ObjectId)
      modifies this
      ensures users == PushFile(old(users), uid, fid)
      ensures files == old(files)
    {
      users := PushFile(users, uid, fid);
    }

    /**
     * `updateMany` reaching the documents whose id is in `applied`: each
     * selected one of them in turn has its status set to completed.
     */
    method CompleteSelected(uid: ObjectId, applied: set<ObjectId>)
      modifies this
      ensures files == CompleteSome(old(files), uid, applied)
      ensures users == old(users)
    {
      ghost var target := CompleteSome(files, uid, applied);
      var i := 0;
      while i < |files|
        invariant 0 <= i <= |files| == |target|
        invariant users == old(users)
        invariant forall j :: 0 <= j < i ==> files[j] == target[j]
        invariant forall j :: i <= j < |files| ==> files[j] == old(files)[j]
      {
        if Selects(files[i], uid) && files[i].id in applied {
          files := files[i := files[i].(status := Completed)];
        }
        i := i + 1;
      }
      assert files == target;
    }

    /** `updateMany` run to the end: every selected document is completed. */
    method CompletePending(uid: ObjectId)
      modifies this
      ensures files == CompleteAll(old(files), uid)
      ensures users == old(users)
    {
      CompleteSomeAll(files, uid, FileIds(files));
      CompleteSelected(uid, FileIds(files));
    }
  }

  /** The public directory: staged copies keyed by their public path. */
  class StagingArea {
    var entries: map<string, Bytes>

    constructor (entries: map<string, Bytes>)
      ensures this.entries == entries
    {
      this.entries := entries;
    }

    /** `writeFile(path, data)`; it throws for a path in `unwritable`. */
    method WriteFile(path: string, data: Bytes, unwritable: set<string>) returns (ok: bool)
      modifies this
      ensures ok <==> path !in unwritable
      ensures entries == if ok then old(entries)[path := data] else old(entries)
    {
      ok := path !in unwritable;
      if ok {
        entries := entries[path := data];
      }
    }

    /** `unlink(path)`; it throws when there is no such file or it is in `undeletable`. */
    method Unlink(path: string, undeletable: set<string>) returns (ok: bool)
      modifies this
      ensures ok <==> path in old(entries) && path !in undeletable
      ensures entries == if ok then old(entries) - {path} else old(entries)
    {
      ok := path in entries && path !in undeletable;
      if ok {
        entries := entries - {path};
      }
    }
  }

}
