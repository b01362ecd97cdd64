/**
 * The upload page's bookkeeping (src/app/upload/page.tsx): a list of file
 * states, one per file the user dropped, keyed by `key`. Upload events update
 * the first entry with a given key; the Upload button posts one intake body
 * per entry whose progress is COMPLETE and is enabled exactly when there is one.
 */
module UploadPage {

  import opened Wrappers
  import FileModel
  import FilesRoute

  /** The browser File's `name` and `type`. */
  datatype LocalFile = LocalFile(name: string, mimeType: string)

  /** `'PENDING' | number | 'COMPLETE' | 'ERROR'`. */
  datatype Progress = Pending | Percent(n: nat) | Complete | Error

  datatype FileState = FileState(file: LocalFile, key: string, progress: Progress, url: Option<string>)

  /** The index `find` stops at: the first entry with the key. */
  function FirstIndex(s: seq<FileState>, key: string): (r: Option<nat>)
    ensures r.Some? ==> r.value < |s| && s[r.value].key == key
    ensures r.Some? ==> forall j :: 0 <= j < r.value ==> s[j].key != key
    ensures r.None? ==> forall j :: 0 <= j < |s| ==> s[j].key != key
  {
    if s == [] then None
    else if s[0].key == key then Some(0)
    else match FirstIndex(s[1..], key)
      case None => None
      case Some(i) => Some(i + 1)
  }

  /** Lists with the same keys, position by position, have the same first index for every key. */
  lemma FirstIndexByKeys(s: seq<FileState>, t: seq<FileState>, key: string)
    requires |s| == |t| && forall i :: 0 <= i < |s| ==> s[i].key == t[i].key
    ensures FirstIndex(s, key) == FirstIndex(t, key)
  {
    match FirstIndex(s, key)
    case None =>
    case Some(i) =>
      assert t[i].key == key;
  }

  /**
   * The updater of updateFileProgress: only the progress of the first entry
   * with the key changes; without such an entry the list is unchanged.
   */
  function WithProgress(s: seq<FileState>, key: string, p: Progress): (r: seq<FileState>)
    ensures |r| == |s|
    ensures forall i :: 0 <= i < |s| ==> r[i] == s[i].(progress := r[i].progress)
    ensures forall i: nat :: i < |s| && FirstIndex(s, key) != Some(i) ==> r[i] == s[i]
    ensures FirstIndex(s, key).Some? ==> r[FirstIndex(s, key).value].progress == p
  {
    match FirstIndex(s, key)
    case None => s
    case Some(i) => s[i := s[i].(progress := p)]
  }

  /** The updater after a successful upload: only the url of the first entry with the key changes. */
  function WithUrl(s: seq<FileState>, key: string, url: string): (r: seq<FileState>)
    ensures |r| == |s|
    ensures forall i :: 0 <= i < |s| ==> r[i] == s[i].(url := r[i].url)
    ensures forall i: nat :: i < |s| && FirstIndex(s, key) != Some(i) ==> r[i] == s[i]
    ensures FirstIndex(s, key).Some? ==> r[FirstIndex(s, key).value].url == Some(url)
  {
    match FirstIndex(s, key)
    case None => s
    case Some(i) => s[i := s[i].(url := Some(url))]
  }

  /** Of two progress updates for one key, the later one is all that remains. */
  lemma WithProgressLastWins(s: seq<FileState>, key: string, p: Progress, q: Progress)
    ensures WithProgress(WithProgress(s, key, p), key, q) == WithProgress(s, key, q)
  {
    FirstIndexByKeys(s, WithProgress(s, key, p), key);
  }

  /** `fileStates.some(f => f.progress === 'COMPLETE')`: the Upload button's enabling test. */
  function AnyComplete(s: seq<FileState>): (r: bool)
    ensures r <==> exists i :: 0 <= i < |s| && s[i].progress == Complete
  {
    if s == [] then false
    else s[0].progress == Complete || AnyComplete(s[1..])
  }

  /** The body handleUpload sends for an entry; JSON.stringify leaves out an undefined url. */
  function IntakeOf(e: FileState): FilesRoute.IntakeBody {
    FilesRoute.IntakeBody(e.url, Some(e.file.name), Some(e.file.mimeType))
  }

  /** handleUpload's `filter` and `map`: one body per COMPLETE entry, in list order. */
  function UploadBodies(s: seq<FileState>): (r: seq<FilesRoute.IntakeBody>)
    ensures |r| <= |s|
    ensures forall e :: e in s && e.progress == Complete ==> IntakeOf(e) in r
    ensures forall b :: b in r ==> exists e :: e in s && e.progress == Complete && IntakeOf(e) == b
    ensures r == [] <==> !AnyComplete(s)
  {
    if s == [] then []
    else (if s[0].progress == Complete then [IntakeOf(s[0])] else []) + UploadBodies(s[1..])
  }

  /** The bodies keep list order: the bodies of a concatenation are the concatenated bodies. */
  lemma {:induction false} UploadBodiesAppend(a: seq<FileState>, b: seq<FileState>)
    ensures UploadBodies(a + b) == UploadBodies(a) + UploadBodies(b)
  {
    if a == [] {
      assert a + b == b;
    } else {
      assert (a + b)[1..] == a[1..] + b;
      UploadBodiesAppend(a[1..], b);
    }
  }

  /** The intake route accepts an entry's body only when its url, name and type are all non-empty. */
  lemma IntakeOfAccepted(e: FileState)
    ensures FilesRoute.HasRequiredFields(IntakeOf(e)) <==>
      FileModel.Present(e.url) && e.file.name != "" && e.file.mimeType != ""
  {
  }

  /** Marking an entry COMPLETE enables the Upload button, and its body is among those posted. */
  lemma CompletingEnablesUpload(s: seq<FileState>, key: string)
    requires FirstIndex(s, key).Some?
    ensures AnyComplete(WithProgress(s, key, Complete))
    ensures IntakeOf(WithProgress(s, key, Complete)[FirstIndex(s, key).value]) in UploadBodies(WithProgress(s, key, Complete))
  {
    var i := FirstIndex(s, key).value;
    assert WithProgress(s, key, Complete)[i].progress == Complete;
  }

  /** The page's `fileStates` cell. */
  class Page {
    var fileStates: seq<FileState>

    constructor ()
      ensures fileStates == []
    {
      fileStates := [];
    }

    /** updateFileProgress: find the first entry with the key and set its progress. */
    method UpdateFileProgress(key: string, progress: Progress)
      modifies this
      ensures fileStates == WithProgress(old(fileStates), key, progress)
    {
      var i := 0;
      while i < |fileStates| && fileStates[i].key != key
        invariant 0 <= i <= |fileStates|
        invariant forall j :: 0 <= j < i ==> fileStates[j].key != key
      {
        i := i + 1;
      }
      if i < |fileStates| {
        fileStates := fileStates[i := fileStates[i].(progress := progress)];
      }
    }

    /** The url update after a successful upload: find the first entry with the key and set its url. */
    method SetUploadedUrl(key: string, url: string)
      modifies this
      ensures fileStates == WithUrl(old(fileStates), key, url)
    {
      var i := 0;
      while i < |fileStates| && fileStates[i].key != key
        invariant 0 <= i <= |fileStates|
        invariant forall j :: 0 <= j < i ==> fileStates[j].key != key
      {
        i := i + 1;
      }
      if i < |fileStates| {
        fileStates := fileStates[i := fileStates[i].(url := Some(url))];
      }
    }

    /** The dropzone's onChange: its list replaces the page's. */
    method Replace(files: seq<FileState>)
      modifies this
      ensures fileStates == files
    {
      fileStates := files;
    }

    /** onFilesAdded: the new entries go after the existing ones, in order. */
    method AddFiles(added: seq<FileState>)
      modifies this
      ensures fileStates == old(fileStates) + added
    {
      fileStates := fileStates + added;
    }

    /** onProgressChange: record the percentage; at 100, the entry then becomes COMPLETE. */
    method OnProgressChange(key: string, n: nat)
      modifies this
      ensures n != 100 ==> fileStates == WithProgress(old(fileStates), key, Percent(n))
      ensures n == 100 ==> fileStates == WithProgress(old(fileStates), key, Complete)
    {
      UpdateFileProgress(key, Percent(n));
      if n == 100 {
        UpdateFileProgress(key, Complete);
        WithProgressLastWins(old(fileStates), key, Percent(n), Complete);
      }
    }

    /** A failed upload marks the entry ERROR. */
    method OnUploadFailed(key: string)
      modifies this
      ensures fileStates == WithProgress(old(fileStates), key, Error)
    {
      UpdateFileProgress(key, Error);
    }
  }

}
