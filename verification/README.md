# File staging pipeline of freelance-print, in Dafny

This project models the core of a small print-ordering web application. A
signed-in user uploads documents. Each upload is registered as a File record
with status `pending`. The checkout view stages a local copy of each pending
file under the public `temp` directory. Completing the order deletes those
copies and marks the files `completed`.

The model covers:

- the File and User schemas (`FileModel`, `UserModel`);
- the record store and the public directory as the routes use them (`Store`);
- the staging and finalizing route (`PendingRoute`);
- the upload intake route (`FilesRoute`);
- the route guard (`Middleware`);
- the PDF viewer's navigation state (`PdfView`);
- the upload page's list of file states (`UploadPage`).

Store queries are functions over sequences in store order. The writes (`save`,
`$push`, `updateMany`, `writeFile`, `unlink`) are methods of two classes,
`Store.Database` and `Store.StagingArea`. Whatever the code cannot see is an
input:

- the session is an optional email;
- remote content is a map from url to bytes, and a fetch fails when the url is absent;
- failing writes and deletions are sets of paths;
- a failing store call is a fault value;
- the store's generated id and the clock are plain parameters.

Record ids are 24 lower-case hexadecimal digits, the text form the code
interpolates into names. Because of that fixed width, two files share a staged
path only when they share id and filename (`PendingRoute.StagedPathInjective`).
The staging area is keyed by public path, `/temp/<id>-<filename>`. `downloadFile`
writes to that path and returns it, and the cleanup loop unlinks the same path.

The store invariant `Store.StoreValid` holds the two schemas, the unique email
and id indexes, and a consistency rule for the users' lists. Every id in a
user's `files` list names a File that user owns. Intake keeps this invariant on
every path. That includes a failed `$push`, which leaves a saved file out of
its owner's list. The bulk update keeps it too.

Some points of the code's behaviour that the model keeps:

- a fetch has no timeout, and a copy is written in place, not through a temporary file and a rename;
- finalize replies with a message only;
- users are looked up by session email;
- deleting a missing copy is an error that is logged and swallowed;
- cleanup runs before the bulk update, so when the update fails the reply is 500 and the copies are already gone;
- the bulk update is applied document by document, so a failing update may have completed any subset of the caller's pending files.

A document load sets the page count and leaves the current page as it is
(src/components/pdfview.tsx:22-24). So the page stays in range under both page
buttons, but a reload with fewer pages can leave it out of range.

## Model

| member | source | states |
|---|---|---|
| FileModel.ParseStatus | src/models/File.ts:34-38 | the status enum accepts a name exactly when it is the name of one of the three statuses, and then yields that status |
| FileModel.ParseStatusName | src/models/File.ts:34-38 | every status's stored name parses back to that status |
| FileModel.Validate | src/models/File.ts:12-39 | saving succeeds iff userId is set, url, filename and fileType are non-empty and the status (if given) is in the enum; the saved record carries the given fields, status defaults to pending and uploadDate to the clock |
| UserModel.FindByEmail | src/app/api/getfilespending/route.ts:40-43 | findOne by email returns a stored user with that email, or nothing when no user has it |
| UserModel.FindByEmailUnique | src/models/User.ts:11 | under the unique email index, every stored user is the one its email finds |
| UserModel.PushFile | src/app/api/files/route.ts:59-65 | `$push` appends the id to the end of that user's list; every other user and every other field is unchanged |
| Store.PendingOf | src/app/api/getfilespending/route.ts:45-48 | the query returns exactly the files with that userId and status pending |
| Store.PendingOfAppend | src/app/api/getfilespending/route.ts:45-48 | the query keeps store order |
| Store.PendingOfUnique | src/app/api/getfilespending/route.ts:45-48 | with unique ids, the query returns each selected file once |
| Store.CompleteAll | src/app/api/getfilespending/route.ts:93-96 | the bulk update sets exactly the caller's pending files to completed and leaves every other record unchanged |
| Store.CompleteAllLeavesNonePending | src/app/api/getfilespending/route.ts:93-96 | after the update the caller has no pending file |
| Store.CompleteAllIdempotent | src/app/api/getfilespending/route.ts:93-96 | a second update changes nothing |
| Store.CompleteAllKeepsOthersPending | src/app/api/getfilespending/route.ts:93-96 | another user's pending files are exactly as before |
| Store.CompleteAllKeepsOwners | src/app/api/getfilespending/route.ts:93-96 | the update changes no file's id or owner |
| Store.OwnerOf | src/models/File.ts:13-17 | a file's owner is found exactly when a file with that id exists |
| Store.InsertKeepsStoreValid | src/app/api/files/route.ts:46-56 | saving a valid record under a fresh id keeps the store invariant |
| Store.PushKeepsStoreValid | src/app/api/files/route.ts:59-65 | pushing the id of a file the user owns onto that user's list keeps the store invariant |
| Store.CompleteAllKeepsStoreValid | src/app/api/getfilespending/route.ts:93-96 | the bulk update keeps the store invariant |
| Store.CompleteAllNeverRegresses | src/app/api/getfilespending/route.ts:93-96 | no document's status moves backwards along pending, processing, completed |
| Store.CompleteSome | src/app/api/getfilespending/route.ts:93-96 | a failed update completes exactly the selected documents it reached and leaves every other document unchanged |
| Store.CompleteSomeBetween | src/app/api/getfilespending/route.ts:93-96 | after a failed update every document is either as before or as the full update leaves it |
| Store.CompleteSomeAll | src/app/api/getfilespending/route.ts:93-96 | a failed update that reached every document (a lost reply) equals the full update |
| Store.StatusOnlyKeepsOwners | src/app/api/getfilespending/route.ts:93-96 | changing statuses only, on any documents, changes no document's owner |
| Store.CompleteSomeKeepsStoreValid | src/app/api/getfilespending/route.ts:93-96 | a failed update keeps the store invariant |
| Store.StoreValid | src/models/User.ts:10-18 | the store invariant: both schemas, unique emails, unique user and file ids, and every id in a user's list names a file that user owns |
| Store.Database.Insert | src/app/api/files/route.ts:56 | save appends the record iff its id is not taken; users are unchanged |
| Store.Database.Link | src/app/api/files/route.ts:59-65 | the users become PushFile of the old users; files are unchanged |
| Store.Database.constructor | src/app/api/files/route.ts:22 | the store a route connects to holds the given collections and, when they satisfy the invariant, is valid |
| Store.Database.CompleteSelected | src/app/api/getfilespending/route.ts:93-96 | the loop over the documents leaves CompleteSome of the old files; users are unchanged |
| Store.Database.CompletePending | src/app/api/getfilespending/route.ts:93-96 | the files become CompleteAll of the old files; users are unchanged |
| Store.StagingArea.WriteFile | src/app/api/getfilespending/route.ts:15-16 | the write succeeds iff the path is writable, and then maps the path to the data |
| Store.StagingArea.Unlink | src/app/api/getfilespending/route.ts:23-25 | unlink succeeds iff the file exists and is deletable, and then removes exactly that path |
| PendingRoute.StagedName | src/app/api/getfilespending/route.ts:54 | the local name is the 24-digit id, a dash, then the filename, each recoverable from its position |
| PendingRoute.StagedPath | src/app/api/getfilespending/route.ts:17 | the public path starts with `/temp/` and holds the id at positions 6 to 29 and the filename from position 31 on |
| PendingRoute.StagedPathInjective | src/app/api/getfilespending/route.ts:54 | two files share a staged path iff they share id and filename |
| PendingRoute.StageResults | src/app/api/getfilespending/route.ts:51-64 | one entry per pending file, in order, carrying that record; an entry has a local path iff that file's own fetch and write succeed, and the path is `/temp/<id>-<filename>` |
| PendingRoute.StageAll | src/app/api/getfilespending/route.ts:51-64 | the area after GET's writes, one file after another; its frame is stated by StageAllFrame and its contents by StagedCopiesMatchRemote |
| PendingRoute.StageAllFrame | src/app/api/getfilespending/route.ts:13-18 | staging adds exactly the paths of the successful files; every other path keeps its content |
| PendingRoute.StagedCopiesMatchRemote | src/app/api/getfilespending/route.ts:13-18 | with unique ids, each successful copy holds exactly the remote content of its file |
| PendingRoute.StageAllIdempotent | src/app/api/getfilespending/route.ts:54 | staging twice equals staging once: copies are overwritten, not added |
| PendingRoute.StagedPaths | src/app/api/getfilespending/route.ts:89 | cleanup targets, position by position, the staged path of each pending file |
| PendingRoute.Cleanup | src/app/api/getfilespending/route.ts:21-29 | the area after unlinking each listed path in turn, a failure skipped; its closed form is CleanupRemoves |
| PendingRoute.CleanupRemoves | src/app/api/getfilespending/route.ts:21-29 | cleanup removes every listed path that may be deleted, whatever failed before it, and nothing else |
| PendingRoute.CleanupFailures | src/app/api/getfilespending/route.ts:24-28 | every logged failure is a listed path; every listed path that is missing or undeletable is logged; there are at most as many failures as paths |
| PendingRoute.CleanupFailuresCount | src/app/api/getfilespending/route.ts:22-28 | each path is logged once per attempt, except the first attempt on a path that is present and deletable |
| PendingRoute.CleanupFailuresExact | src/app/api/getfilespending/route.ts:22-28 | a path is logged iff it is listed and is undeletable, missing, or listed more than once |
| PendingRoute.DownloadFile | src/app/api/getfilespending/route.ts:13-18 | succeeds iff the url answers and the path is writable; then the path maps to the remote bytes and is returned; otherwise nothing changes |
| PendingRoute.CleanupTempFiles | src/app/api/getfilespending/route.ts:21-29 | the area becomes Cleanup of the old area and the logged failures are CleanupFailures; it never fails |
| PendingRoute.StageFiles | src/app/api/getfilespending/route.ts:51-64 | returns StageResults and leaves the area as StageAll of the old area |
| PendingRoute.GetPendingFiles | src/app/api/getfilespending/route.ts:32-67 | 401 without an email and 404 for an unknown user, both with no write; otherwise 200 with the caller's listing and the staged area; no record changes |
| PendingRoute.CompletePendingFiles | src/app/api/getfilespending/route.ts:69-99 | 401 and 404 change nothing; otherwise the caller's staged paths are cleaned up, then the caller's pending files become completed (or, if the update fails, 500 and the reached subset of them completed, CompleteSome); users are unchanged and the store invariant holds |
| PendingRoute.ListingIsScoped | src/app/api/getfilespending/route.ts:45-64 | GET lists exactly the caller's pending files, each once |
| PendingRoute.FinalizeRemovesStagedCopies | src/app/api/getfilespending/route.ts:83-90 | POST removes every path GET staged for the same files unless that deletion fails, and leaves every path it does not target as before staging |
| PendingRoute.FinalizeIdempotent | src/app/api/getfilespending/route.ts:82-98 | after a completed POST, a second POST deletes nothing and changes no record, and GET lists and stages nothing |
| FilesRoute.HasRequiredFields | src/app/api/files/route.ts:28 | the route's check passes iff url, filename and fileType are all present and non-empty; IntakeOfAccepted and ValidatedBodySaves relate it to the page and the schema |
| FilesRoute.NewFileDraft | src/app/api/files/route.ts:46-53 | the document built from the user's id, the three body fields, status `pending` and the clock; ValidatedBodySaves proves it always passes the schema once the route's check has passed |
| FilesRoute.ValidatedBodySaves | src/app/api/files/route.ts:46-56 | a body that passes the route's check always passes the schema, as a pending file of that user |
| FilesRoute.PostFile | src/app/api/files/route.ts:9-87 | checks run in order (401, 500 on connect or body errors, 400, 500 on a failed lookup, 404) with no write; a taken id or a failed save gives 500 with no write; otherwise one pending file with the given fields is appended, and its id is pushed onto the user's list with 201 (or 500 and no push if the push fails); the store invariant holds |
| FilesRoute.SavedFileIsListed | src/app/api/files/route.ts:46-56 | a saved upload comes last in its owner's pending listing and appears in no other user's |
| Http.SignedIn | src/app/api/files/route.ts:14 | the session check `!session?.user?.email` passes iff an email is present and non-empty; the three handlers use the same test (also src/app/api/getfilespending/route.ts:36 and 73) |
| Middleware.Authorized | src/middleware.ts:22-37 | the callback refuses exactly a path under `/upload` or `/checkout` without a token; `/` is always allowed |
| Middleware.Middleware | src/middleware.ts:5-18 | the middleware function never sends to sign in; it redirects iff a visitor with a token asks for `/`, and then to `/upload` |
| Middleware.Gate | src/middleware.ts:4-45 | sign-in is required iff the path is matched, guarded and has no token; a redirect happens iff the path is `/` with a token, and it goes to `/upload` |
| Middleware.GateTable | src/middleware.ts:4-45 | the outcome on `/`, `/upload` and `/checkout`, with and without a token |
| Middleware.RedirectSettles | src/middleware.ts:13-17 | the redirect target lets the same visitor through |
| Middleware.UnmatchedPathsPass | src/middleware.ts:43-45 | paths outside the matcher pass unchecked |
| PdfView.PrevPage | src/components/pdfview.tsx:26-28 | `Math.max(1, p - 1)`: the page never drops below 1, goes back one page above page 1, and is 1 at page 1 or below |
| PdfView.NextPage | src/components/pdfview.tsx:30-32 | `Math.min(numPages, p + 1)`: the page never passes the page count, goes forward one page before the last, and is the page count at the last page or beyond |
| PdfView.ZoomedIn | src/components/pdfview.tsx:34-36 | zoom never exceeds 2, grows by 0.25 below 2, and is 2 at 2 or above |
| PdfView.ZoomedOut | src/components/pdfview.tsx:38-40 | zoom never drops below 0.5, shrinks by 0.25 above 0.5, and is 0.5 at 0.5 or below |
| PdfView.PrevDisabled | src/components/pdfview.tsx:65 | the previous-page button is disabled at page 1 or below; DisabledExactlyWhenNoop shows that is exactly when PrevPage changes nothing |
| PdfView.NextDisabled | src/components/pdfview.tsx:78 | the next-page button is disabled at the last page or beyond; DisabledExactlyWhenNoop shows that is exactly when NextPage changes nothing |
| PdfView.ZoomOutDisabled | src/components/pdfview.tsx:88 | the zoom-out button is disabled at 0.5 or below; DisabledExactlyWhenNoop shows that is exactly when ZoomedOut changes nothing |
| PdfView.ZoomInDisabled | src/components/pdfview.tsx:99 | the zoom-in button is disabled at 2 or above; DisabledExactlyWhenNoop shows that is exactly when ZoomedIn changes nothing |
| PdfView.PageStaysInRange | src/components/pdfview.tsx:26-32 | a page in 1..numPages stays there under both page buttons |
| PdfView.ZoomStaysInRange | src/components/pdfview.tsx:34-40 | a zoom in [0.5, 2] stays there under both zoom buttons |
| PdfView.DisabledExactlyWhenNoop | src/components/pdfview.tsx:61-101 | in range, each button is disabled exactly when pressing it would change nothing |
| PdfView.Viewer.constructor | src/components/pdfview.tsx:18-20 | the initial state is 0 pages, page 1 and zoom 1 |
| PdfView.Viewer.OnDocumentLoadSuccess | src/components/pdfview.tsx:22-24 | sets the page count and leaves page and zoom unchanged |
| PdfView.Viewer.GoToPrevPage | src/components/pdfview.tsx:26-28 | the page becomes PrevPage of the old page, and a page in range stays in range |
| PdfView.Viewer.GoToNextPage | src/components/pdfview.tsx:30-32 | the page becomes NextPage of the old page, and a page in range stays in range |
| PdfView.Viewer.ZoomIn | src/components/pdfview.tsx:34-36 | the zoom becomes ZoomedIn of the old zoom and stays in range |
| PdfView.Viewer.ZoomOut | src/components/pdfview.tsx:38-40 | the zoom becomes ZoomedOut of the old zoom and stays in range |
| UploadPage.FirstIndex | src/app/upload/page.tsx:24-26 | `find` stops at the first entry with the key, or finds none when no entry has it |
| UploadPage.WithProgress | src/app/upload/page.tsx:21-32 | only the progress of the first entry with the key changes; length and every other entry are unchanged |
| UploadPage.WithUrl | src/app/upload/page.tsx:87-96 | only the url of the first entry with the key changes |
| UploadPage.WithProgressLastWins | src/app/upload/page.tsx:79-84 | of two progress updates for one key, only the later one remains |
| UploadPage.AnyComplete | src/app/upload/page.tsx:123 | the Upload button is enabled iff some entry is COMPLETE |
| UploadPage.IntakeOf | src/app/upload/page.tsx:43-47 | the JSON body posted for an entry: its url (left out while undefined), its name and its type; IntakeOfAccepted says when the intake route accepts it |
| UploadPage.UploadBodies | src/app/upload/page.tsx:36-49 | one body per COMPLETE entry, each carrying that entry's url, name and type, and none for other entries; there are none iff the button is disabled |
| UploadPage.UploadBodiesAppend | src/app/upload/page.tsx:36-40 | the bodies keep list order |
| UploadPage.IntakeOfAccepted | src/app/upload/page.tsx:43-47 | the intake route accepts an entry's body iff its url, name and type are all non-empty |
| UploadPage.CompletingEnablesUpload | src/app/upload/page.tsx:81-84 | marking an entry COMPLETE enables the Upload button, and that entry's body is among those posted |
| UploadPage.Page.constructor | src/app/upload/page.tsx:16 | the list starts empty |
| UploadPage.Page.Replace | src/app/upload/page.tsx:69-71 | the dropzone's list replaces the page's |
| UploadPage.Page.UpdateFileProgress | src/app/upload/page.tsx:21-32 | the list becomes WithProgress of the old list |
| UploadPage.Page.SetUploadedUrl | src/app/upload/page.tsx:87-96 | the list becomes WithUrl of the old list |
| UploadPage.Page.AddFiles | src/app/upload/page.tsx:73 | the added entries follow the existing ones, in order |
| UploadPage.Page.OnProgressChange | src/app/upload/page.tsx:79-84 | the percentage is recorded, and at 100 the entry ends COMPLETE |
| UploadPage.Page.OnUploadFailed | src/app/upload/page.tsx:97-99 | the entry's progress becomes ERROR |

## Left out

- The database connection, the HTTP transport, the upload service and file bytes on disk are not modelled. They become the store classes, the `remote` map and the fault inputs.
- A failed connection or query in the staging route is not modelled. Those calls have no handler, so the framework would answer 500 with nothing changed. Of the finalize route's store calls, only the failing bulk update (`updateFails`) is modelled.
- `Promise.all` runs as a loop in list order, one file after another. The race between staging and finalizing the same user is not modelled.
- The one-second delay before COMPLETE is not modelled, so other events cannot interleave with it. The progress and the COMPLETE updates happen back to back.
- A write that fails part-way may leave a partial file; the model treats a failed write as changing nothing.
- `path.join` normalisation is not modelled. Staged paths are the literal `/temp/<id>-<filename>`, so a filename containing `/` or `..` is not resolved.
- The 500 reply's message (database error or internal error) is not distinguished.
- JSON fields that are not strings are not modelled; a field is either a string or missing.
- Mongoose's `createdAt`/`updatedAt` timestamps are not modelled. `uploadDate` is the clock input.
- `console.error` logging is not modelled, except that `CleanupTempFiles` returns the paths it would log.
- Sign-in and the creation of users on first sign-in (`src/app/api/auth/[...nextauth]/options.ts`) are not modelled. The store starts from any state that satisfies its invariant.
- The sign-in page's address is not modelled; the gate only says the visitor is sent to sign in.
- The checkout page, the layout, the home page and `next.config.ts` are not modelled.
- PDF rendering, the zoom percentage display and all other JSX are not modelled. `handleUpload`'s navigation to `/checkout` and its ignored fetch responses are not modelled either.
- The unused `FileState` type in `src/types.ts` is not used. The progress type is `'PENDING' | number | 'COMPLETE' | 'ERROR'`, as the upload page uses it.
