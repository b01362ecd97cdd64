/**
 * The staging and finalizing route (src/app/api/getfilespending/route.ts).
 * GET downloads a local copy of each of the caller's pending files into the
 * public directory and lists the files, each with the copy's path when its
 * download and write succeeded. POST deletes those copies, swallowing every
 * failed deletion, and then marks all of the caller's pending files completed.
 * Remote content is an oracle `remote` (a fetch fails when the url is absent);
 * failing writes and deletions are the path sets `unwritable` and `undeletable`.
 */
module PendingRoute {

  import opened Wrappers
  import opened FileModel
  import opened UserModel
  import opened Http
  import opened Store

  /** The directory, under the public one, that holds staged copies. */
  const TempDir: string := "/temp/"

  /** The local name of a file's staged copy: `${_id}-${filename}`. */
  function StagedName(f: FileRecord): (r: string)
    ensures |r| == 25 + |f.filename|
    ensures r[..24] == f.id && r[24] == '-' && r[25..] == f.filename
  {
    f.id + "-" + f.filename
  }

  /** The public path of a staged copy: what downloadFile returns and what cleanup removes. */
  function StagedPath(f: FileRecord): (r: string)
    ensures TempDir <= r && |r| == 31 + |f.filename|
    ensures r[6..30] == f.id && r[31..] == f.filename
  {
    var name := StagedName(f);
    assert (TempDir + name)[6..] == name;
    TempDir + name
  }

  /** Two files share a staged path exactly when they share id and filename. */
  lemma StagedPathInjective(a: FileRecord, b: FileRecord)
    ensures StagedPath(a) == StagedPath(b) <==> a.id == b.id && a.filename == b.filename
  {
    if StagedPath(a) == StagedPath(b) {
      assert StagedPath(a)[6..30] == a.id && StagedPath(a)[31..] == a.filename;
      assert StagedPath(b)[6..30] == b.id && StagedPath(b)[31..] == b.filename;
    }
  }

  /** downloadFile succeeds for `f`: the fetch answers and the write goes through. */
  predicate Stageable(f: FileRecord, remote: map<string, Bytes>, unwritable: set<string>) {
    f.url in remote && StagedPath(f) !in unwritable
  }

  /** One element of GET's reply: the record, with `localUrl` when its copy was written. */
  datatype StagedEntry = StagedEntry(file: FileRecord, localUrl: Option<string>)

  /**
   * GET's listing: one entry per pending file, in query order; an entry has a
   * local path exactly when that file's own download and write succeeded.
   */
  function StageResults(pending: seq<FileRecord>, remote: map<string, Bytes>, unwritable: set<string>)
    : (r: seq<StagedEntry>)
    ensures |r| == |pending|
    ensures forall i :: 0 <= i < |r| ==> r[i].file == pending[i]
    ensures forall i :: 0 <= i < |r| ==>
      (r[i].localUrl.Some? <==> Stageable(pending[i], remote, unwritable))
    ensures forall i :: 0 <= i < |r| && r[i].localUrl.Some? ==> r[i].localUrl.value == StagedPath(pending[i])
  {
    if pending == [] then []
    else
      var f := pending[0];
      [StagedEntry(f, if Stageable(f, remote, unwritable) then Some(StagedPath(f)) else None)] +
      StageResults(pending[1..], remote, unwritable)
  }

  /** The staged paths of the files of `pending` whose download succeeds. */
  function Written(pending: seq<FileRecord>, remote: map<string, Bytes>, unwritable: set<string>): set<string> {
    set i | 0 <= i < |pending| && Stageable(pending[i], remote, unwritable) :: StagedPath(pending[i])
  }

  lemma WrittenCons(pending: seq<FileRecord>, remote: map<string, Bytes>, unwritable: set<string>)
    requires pending != []
    ensures Written(pending, remote, unwritable) ==
      (if Stageable(pending[0], remote, unwritable) then {StagedPath(pending[0])} else {}) +
      Written(pending[1..], remote, unwritable)
  {
    var rest := pending[1..];
    forall p | p in Written(pending, remote, unwritable)
      ensures p in (if Stageable(pending[0], remote, unwritable) then {StagedPath(pending[0])} else {}) +
        Written(rest, remote, unwritable)
    {
      var i :| 0 <= i < |pending| && Stageable(pending[i], remote, unwritable) && p == StagedPath(pending[i]);
      if i > 0 {
        assert rest[i - 1] == pending[i];
      }
    }
    forall p | p in Written(rest, remote, unwritable)
      ensures p in Written(pending, remote, unwritable)
    {
      var i :| 0 <= i < |rest| && Stageable(rest[i], remote, unwritable) && p == StagedPath(rest[i]);
      assert rest[i] == pending[i + 1];
    }
  }

  /**
   * The staging area after GET's writes, one file after the other: it gains
   * exactly the paths of the files whose download succeeds; nothing else changes.
   */
  function StageAll(m: map<string, Bytes>, pending: seq<FileRecord>, remote: map<string, Bytes>,
                    unwritable: set<string>): map<string, Bytes>
    decreases |pending|
  {
    if pending == [] then m
    else
      var f := pending[0];
      StageAll(if Stageable(f, remote, unwritable) then m[StagedPath(f) := remote[f.url]] else m,
               pending[1..], remote, unwritable)
  }

  lemma {:induction false} StageAllFrame(m: map<string, Bytes>, pending: seq<FileRecord>,
                                         remote: map<string, Bytes>, unwritable: set<string>)
    ensures StageAll(m, pending, remote, unwritable).Keys == m.Keys + Written(pending, remote, unwritable)
    ensures forall k :: k in m && k !in Written(pending, remote, unwritable) ==>
      StageAll(m, pending, remote, unwritable)[k] == m[k]
    decreases |pending|
  {
    if pending != [] {
      var f := pending[0];
      WrittenCons(pending, remote, unwritable);
      StageAllFrame(if Stageable(f, remote, unwritable) then m[StagedPath(f) := remote[f.url]] else m,
                    pending[1..], remote, unwritable);
    }
  }

  /** With unique ids every successful copy holds exactly the remote content of its file. */
  lemma {:induction false} StagedCopiesMatchRemote(m: map<string, Bytes>, pending: seq<FileRecord>,
                                                   remote: map<string, Bytes>, unwritable: set<string>, i: nat)
    requires UniqueFileIds(pending) && i < |pending| && Stageable(pending[i], remote, unwritable)
    ensures StagedPath(pending[i]) in StageAll(m, pending, remote, unwritable)
    ensures StageAll(m, pending, remote, unwritable)[StagedPath(pending[i])] == remote[pending[i].url]
    decreases |pending|
  {
    var f := pending[0];
    var rest := pending[1..];
    var m' := if Stageable(f, remote, unwritable) then m[StagedPath(f) := remote[f.url]] else m;
    assert StageAll(m, pending, remote, unwritable) == StageAll(m', rest, remote, unwritable);
    assert i > 0 || StagedPath(pending[i]) in Written(pending, remote, unwritable);
    if i == 0 {
      forall j | 0 <= j < |rest|
        ensures StagedPath(rest[j]) != StagedPath(f)
      {
        assert rest[j] == pending[j + 1];
        StagedPathInjective(rest[j], f);
      }
      assert StagedPath(f) !in Written(rest, remote, unwritable);
      StageAllFrame(m', rest, remote, unwritable);
    } else {
      assert rest[i - 1] == pending[i];
      StagedCopiesMatchRemote(m', rest, remote, unwritable, i - 1);
    }
  }

  /** The writes of one GET as a map: for each path, the content written last. */
  function Writes(pending: seq<FileRecord>, remote: map<string, Bytes>, unwritable: set<string>)
    : map<string, Bytes>
  {
    if pending == [] then map[]
    else
      var f := pending[0];
      (if Stageable(f, remote, unwritable) then map[StagedPath(f) := remote[f.url]] else map[]) +
      Writes(pending[1..], remote, unwritable)
  }

  lemma {:induction false} StageAllOverlays(m: map<string, Bytes>, pending: seq<FileRecord>,
                                            remote: map<string, Bytes>, unwritable: set<string>)
    ensures StageAll(m, pending, remote, unwritable) == m + Writes(pending, remote, unwritable)
    decreases |pending|
  {
    if pending != [] {
      var f := pending[0];
      var w := if Stageable(f, remote, unwritable) then map[StagedPath(f) := remote[f.url]] else map[];
      var m' := if Stageable(f, remote, unwritable) then m[StagedPath(f) := remote[f.url]] else m;
      var ws := Writes(pending[1..], remote, unwritable);
      StageAllOverlays(m', pending[1..], remote, unwritable);
      assert m' == m + w;
      assert (m + w) + ws == m + (w + ws);
    }
  }

  /** Staging twice in a row leaves the staging area as staging once: copies are overwritten, not added. */
  lemma StageAllIdempotent(m: map<string, Bytes>, pending: seq<FileRecord>,
                           remote: map<string, Bytes>, unwritable: set<string>)
    ensures StageAll(StageAll(m, pending, remote, unwritable), pending, remote, unwritable) ==
            StageAll(m, pending, remote, unwritable)
  {
    var w := Writes(pending, remote, unwritable);
    StageAllOverlays(m, pending, remote, unwritable);
    StageAllOverlays(m + w, pending, remote, unwritable);
    assert (m + w) + w == m + w;
  }

  /** `pendingFiles.map(file => `/temp/${file._id}-${file.filename}`)`: what POST asks cleanup to remove. */
  function StagedPaths(pending: seq<FileRecord>): (r: seq<string>)
    ensures |r| == |pending|
    ensures forall i :: 0 <= i < |pending| ==> r[i] == StagedPath(pending[i])
  {
    if pending == [] then [] else [StagedPath(pending[0])] + StagedPaths(pending[1..])
  }

  /** The staging area after unlinking `paths` in order, each failure skipped. */
  function Cleanup(m: map<string, Bytes>, paths: seq<string>, undeletable: set<string>): map<string, Bytes>
    decreases |paths|
  {
    if paths == [] then m
    else
      var p := paths[0];
      Cleanup(if p in m && p !in undeletable then m - {p} else m, paths[1..], undeletable)
  }

  /** Cleanup removes every listed path it may delete, whatever failed before it, and nothing else. */
  lemma {:induction false} CleanupRemoves(m: map<string, Bytes>, paths: seq<string>, undeletable: set<string>)
    ensures Cleanup(m, paths, undeletable) == m - (set p | p in paths && p !in undeletable)
    decreases |paths|
  {
    if paths != [] {
      var p := paths[0];
      CleanupRemoves(if p in m && p !in undeletable then m - {p} else m, paths[1..], undeletable);
      assert (set q | q in paths && q !in undeletable) ==
        (if p !in undeletable then {p} else {}) + (set q | q in paths[1..] && q !in undeletable);
    }
  }

  /** The paths whose unlink failed and was logged: missing files and undeletable ones. */
  function CleanupFailures(m: map<string, Bytes>, paths: seq<string>, undeletable: set<string>): (r: seq<string>)
    ensures forall p :: p in r ==> p in paths
    ensures forall p :: p in paths && (p in undeletable || p !in m) ==> p in r
    ensures |r| <= |paths|
    decreases |paths|
  {
    if paths == [] then []
    else
      var p := paths[0];
      if p in m && p !in undeletable then CleanupFailures(m - {p}, paths[1..], undeletable)
      else [p] + CleanupFailures(m, paths[1..], undeletable)
  }

  /**
   * How often each path is logged: every attempt fails except the first
   * attempt on a path that is there and may be deleted.
   */
  lemma {:induction false} CleanupFailuresCount(m: map<string, Bytes>, paths: seq<string>,
                                                undeletable: set<string>, p: string)
    ensures multiset(CleanupFailures(m, paths, undeletable))[p] ==
      if p in m && p !in undeletable && p in paths then multiset(paths)[p] - 1 else multiset(paths)[p]
    decreases |paths|
  {
    if paths != [] {
      var q := paths[0];
      assert paths == [q] + paths[1..];
      if q in m && q !in undeletable {
        CleanupFailuresCount(m - {q}, paths[1..], undeletable, p);
      } else {
        CleanupFailuresCount(m, paths[1..], undeletable, p);
      }
    }
  }

  /** A path is logged exactly when it is missing, undeletable, or listed more than once. */
  lemma CleanupFailuresExact(m: map<string, Bytes>, paths: seq<string>, undeletable: set<string>, p: string)
    ensures p in CleanupFailures(m, paths, undeletable) <==>
      p in paths && (p in undeletable || p !in m || multiset(paths)[p] >= 2)
  {
    CleanupFailuresCount(m, paths, undeletable, p);
  }

  /** downloadFile(url, name): fetch the content, write it under /temp/<name>, return that path. */
  method DownloadFile(area: StagingArea, remote: map<string, Bytes>, unwritable: set<string>,
                      url: string, name: string) returns (localPath: Option<string>)
    modifies area
    ensures localPath.Some? <==> url in remote && TempDir + name !in unwritable
    ensures localPath.Some? ==>
      localPath.value == TempDir + name && area.entries == old(area.entries)[TempDir + name := remote[url]]
    ensures localPath.None? ==> area.entries == old(area.entries)
  {
    if url !in remote {
      localPath := None;
      return;
    }
    var path := TempDir + name;
    var ok := area.WriteFile(path, remote[url], unwritable);
    localPath := if ok then Some(path) else None;
  }

  /** cleanupTempFiles(paths): unlink every path in turn; a failure is logged and the loop goes on. */
  method CleanupTempFiles(area: StagingArea, paths: seq<string>, undeletable: set<string>)
    returns (failed: seq<string>)
    modifies area
    ensures area.entries == Cleanup(old(area.entries), paths, undeletable)
    ensures failed == CleanupFailures(old(area.entries), paths, undeletable)
  {
    failed := [];
    var i := 0;
    while i < |paths|
      invariant 0 <= i <= |paths|
      invariant Cleanup(area.entries, paths[i..], undeletable) == Cleanup(old(area.entries), paths, undeletable)
      invariant failed + CleanupFailures(area.entries, paths[i..], undeletable) ==
                CleanupFailures(old(area.entries), paths, undeletable)
    {
      assert paths[i..][1..] == paths[i + 1..];
      var ok := area.Unlink(paths[i], undeletable);
      if !ok {
        failed := failed + [paths[i]];
      }
      i := i + 1;
    }
  }

  /**
   * The `Promise.all` over the pending files, run one file after the other:
   * each download is attempted, a failure only leaves that entry without a path.
   */
  method StageFiles(area: StagingArea, pending: seq<FileRecord>, remote: map<string, Bytes>,
                    unwritable: set<string>) returns (entries: seq<StagedEntry>)
    modifies area
    ensures entries == StageResults(pending, remote, unwritable)
    ensures area.entries == StageAll(old(area.entries), pending, remote, unwritable)
  {
    ghost var listing := StageResults(pending, remote, unwritable);
    entries := [];
    var i := 0;
    while i < |pending|
      invariant 0 <= i <= |pending|
      invariant entries == listing[..i]
      invariant StageAll(area.entries, pending[i..], remote, unwritable) ==
                StageAll(old(area.entries), pending, remote, unwritable)
    {
      var f := pending[i];
      assert pending[i..][0] == f && pending[i..][1..] == pending[i + 1..];
      var localUrl := DownloadFile(area, remote, unwritable, f.url, StagedName(f));
      assert StagedEntry(f, localUrl) == listing[i];
      entries := entries + [StagedEntry(f, localUrl)];
      assert entries == listing[..i + 1];
      i := i + 1;
    }
    assert listing[..|pending|] == listing;
  }

  /** GET: list the caller's pending files, staging a local copy of each. */
  method GetPendingFiles(db: Database, area: StagingArea, email: Option<string>,
                         remote: map<string, Bytes>, unwritable: set<string>)
    returns (reply: Reply<seq<StagedEntry>>)
    modifies area
    ensures unchanged(db)
    ensures !SignedIn(email) ==> reply == Unauthorized && area.entries == old(area.entries)
    ensures SignedIn(email) && FindByEmail(db.users, email.value).None? ==>
      reply == NotFound && area.entries == old(area.entries)
    ensures SignedIn(email) && FindByEmail(db.users, email.value).Some? ==>
      var pending := PendingOf(db.files, FindByEmail(db.users, email.value).value.id);
      reply == Ok(200, StageResults(pending, remote, unwritable)) &&
      area.entries == StageAll(old(area.entries), pending, remote, unwritable)
  {
    if !SignedIn(email) {
      return Unauthorized;
    }
    var user := FindByEmail(db.users, email.value);
    if user.None? {
      return NotFound;
    }
    var pending := PendingOf(db.files, user.value.id);
    var entries := StageFiles(area, pending, remote, unwritable);
    reply := Ok(200, entries);
  }

  /**
   * POST: remove the caller's staged copies, then mark the caller's pending
   * files completed. A failing `updateMany` (`updateFails`) throws out of the
   * handler, so the reply is 500; by then the server may have completed any
   * of the selected documents, those whose id is in `applied`.
   */
  method CompletePendingFiles(db: Database, area: StagingArea, email: Option<string>,
                              undeletable: set<string>, updateFails: bool, applied: set<ObjectId>)
    returns (reply: Reply<()>)
    requires db.Valid()
    modifies db, area
    ensures db.Valid()
    ensures !SignedIn(email) ==> reply == Unauthorized && unchanged(db) && unchanged(area)
    ensures SignedIn(email) && FindByEmail(old(db.users), email.value).None? ==>
      reply == NotFound && unchanged(db) && unchanged(area)
    ensures SignedIn(email) && FindByEmail(old(db.users), email.value).Some? ==>
      var uid := FindByEmail(old(db.users), email.value).value.id;
      && area.entries == Cleanup(old(area.entries), StagedPaths(PendingOf(old(db.files), uid)), undeletable)
      && db.users == old(db.users)
      && db.files == (if updateFails then CompleteSome(old(db.files), uid, applied) else CompleteAll(old(db.files), uid))
      && reply == (if updateFails then ServerError else Ok(200, ()))
  {
    if !SignedIn(email) {
      return Unauthorized;
    }
    var user := FindByEmail(db.users, email.value);
    if user.None? {
      return NotFound;
    }
    var pending := PendingOf(db.files, user.value.id);
    var failed := CleanupTempFiles(area, StagedPaths(pending), undeletable);
    if updateFails {
      CompleteSomeKeepsStoreValid(db.users, db.files, user.value.id, applied);
      db.CompleteSelected(user.value.id, applied);
      return ServerError;
    }
    CompleteAllKeepsStoreValid(db.users, db.files, user.value.id);
    db.CompletePending(user.value.id);
    reply := Ok(200, ());
  }

  /** GET lists exactly the caller's pending files, each once when ids are unique. */
  lemma ListingIsScoped(files: seq<FileRecord>, uid: ObjectId, remote: map<string, Bytes>, unwritable: set<string>)
    requires UniqueFileIds(files)
    ensures var r := StageResults(PendingOf(files, uid), remote, unwritable);
      && (forall i :: 0 <= i < |r| ==> r[i].file in files && Selects(r[i].file, uid))
      && (forall f :: f in files && Selects(f, uid) ==> exists i :: 0 <= i < |r| && r[i].file == f)
      && (forall i, j :: 0 <= i < j < |r| ==> r[i].file.id != r[j].file.id)
  {
    var pending := PendingOf(files, uid);
    var r := StageResults(pending, remote, unwritable);
    PendingOfUnique(files, uid);
    forall i | 0 <= i < |r| ensures r[i].file in files && Selects(r[i].file, uid) {
      assert pending[i] in pending;
    }
    forall f | f in files && Selects(f, uid)
      ensures exists i :: 0 <= i < |r| && r[i].file == f
    {
      var i :| 0 <= i < |pending| && pending[i] == f;
      assert r[i].file == f;
    }
  }

  /**
   * POST targets exactly the paths GET writes for the same store: every
   * listed local path is removed unless its deletion fails, and every path
   * POST does not target keeps its content from before staging.
   */
  lemma FinalizeRemovesStagedCopies(m: map<string, Bytes>, files: seq<FileRecord>, uid: ObjectId,
                                    remote: map<string, Bytes>, unwritable: set<string>, undeletable: set<string>)
    ensures var pending := PendingOf(files, uid);
      var staged := StageAll(m, pending, remote, unwritable);
      var cleaned := Cleanup(staged, StagedPaths(pending), undeletable);
      && (forall e :: e in StageResults(pending, remote, unwritable) && e.localUrl.Some? ==>
            e.localUrl.value !in cleaned || e.localUrl.value in undeletable)
      && (forall f :: f in pending ==> StagedPath(f) !in cleaned || StagedPath(f) in undeletable)
      && (forall k :: k in m && k !in StagedPaths(pending) ==> k in cleaned && cleaned[k] == m[k])
  {
    var pending := PendingOf(files, uid);
    var paths := StagedPaths(pending);
    var staged := StageAll(m, pending, remote, unwritable);
    var cleaned := Cleanup(staged, paths, undeletable);
    StageAllFrame(m, pending, remote, unwritable);
    CleanupRemoves(staged, paths, undeletable);
    forall f | f in pending ensures StagedPath(f) !in cleaned || StagedPath(f) in undeletable {
      var i :| 0 <= i < |pending| && pending[i] == f;
      assert paths[i] == StagedPath(f);
    }
    forall k | k in m && k !in paths ensures k in cleaned && cleaned[k] == m[k] {
      assert k !in (set p | p in paths && p !in undeletable);
    }
    var r := StageResults(pending, remote, unwritable);
    forall e | e in r && e.localUrl.Some? ensures e.localUrl.value !in cleaned || e.localUrl.value in undeletable {
      var i :| 0 <= i < |r| && r[i] == e;
      assert pending[i] in pending;
    }
  }

  /** After a successful POST a second POST deletes nothing and changes no record, and GET lists nothing. */
  lemma FinalizeIdempotent(m: map<string, Bytes>, files: seq<FileRecord>, uid: ObjectId,
                           remote: map<string, Bytes>, unwritable: set<string>, undeletable: set<string>)
    ensures var done := CompleteAll(files, uid);
      && StagedPaths(PendingOf(done, uid)) == []
      && Cleanup(m, StagedPaths(PendingOf(done, uid)), undeletable) == m
      && CompleteAll(done, uid) == done
      && StageResults(PendingOf(done, uid), remote, unwritable) == []
      && StageAll(m, PendingOf(done, uid), remote, unwritable) == m
  {
    CompleteAllLeavesNonePending(files, uid);
    CompleteAllIdempotent(files, uid);
  }

}
