# The migration engine, verified

The repository migrates files, contacts, calendars and mail from one tenant to another. It reads
items from an unreliable source, writes them to a destination through Microsoft Graph, and records
progress in a small store of item rows, folder rows and cursors, so that a migration can be
interrupted, resumed and followed by incremental passes. This project models that engine in Dafny
4.11 and proves what every sequence of its runs keeps: nothing is lost behind a cursor, nothing is
created twice, and everything lands in the right place.

Each job appears twice. A `*_job` module has the source's own form: a class whose methods update the
store and the destination step by step, with the source's loops and early exits. A `*_pass` module
says on values what one step and one pass do; every method of the class is proved to compute exactly
that. The theorems are about the values, over all inputs, all failures and all runs.

| files | what they model |
|---|---|
| `state.dfy` | the store: item rows, folder rows, the cursor |
| `files_pass`, `files_items`, `files_job` | one files pass: the deferral worklist, the folder index, the per-item state machine, the cursor rule |
| `files_accounting`, `files_placement`, `files_order`, `files_failures` | what a files pass settles, and where it puts it |
| `files_names`, `files_drive`, `files_drive_order` | files and folders that want one name: a pass on the drive, and when it depends on the listing |
| `files_runs`, `files_turns`, `files_contents`, `files_history`, `files_hashes` | any sequence of passes: uploads, the order of settling, the contents of files, torn updates |
| `contacts_pass`, `contacts_job`, `contacts_mirror`, `contacts_markers` | the contacts loop, the mirror over any sequence of deltas, and the change markers it needs |
| `imap`, `imap_source` | the UIDVALIDITY/UIDNEXT cursor against a server that changes between any two commands |
| `mail_pass`, `mail_job`, `mail_folders` | the mail loop, its whole runs on an IMAP source, the folder path cache |
| `calendar_pass`, `calendar_job`, `calendar_order`, `calendar_clean`, `calendar_runs` | masters in one loop, changed occurrences after it, what a clean pass has done, and any sequence of runs |
| `get_or_create`, `ensure_folder` | list, create, 409, list again, by any number of callers at once |
| `sharepoint` | resumable site provisioning |
| `ratelimit` | the token bucket over real time |
| `recurrence`, `recurrence_meaning`, `recurrence_losses` | RRULE to Graph recurrence, with the dates both sides mean, and where they differ |
| `crlf`, `mime`, `mime_parts` | line endings, attachment pruning in place, the JSON message body |

## The environment

- A Graph call succeeds or raises; one that raises has no effect, except where a reply is lost on
  purpose (`SharePoint.PostReply.Lost`). A process may also die before a call, or after it and before
  the store is written; the calls that end so are the `DiesBefore`, `DiesAfter` and `Torn` cases.
- On the drive a name in a folder belongs to one item, file or folder, up to case. A folder is not
  created where a file has the name (409, and no folder found), a small file is not uploaded where a
  folder has its path, and a large one whose name is taken is renamed; these are looked up on the drive
  (`OnDrive`). The results on a plan (`FilesPlacement`, `FilesOrder`, `FilesFailures`,
  `FilesContents`) take the calls that raise as known (`Known`), those that fail for a name included;
  every pass on the drive is such a pass (`PassIsKnown`).
- The name that a rename gives is a parameter (`Rename`) that gives a free name (`Fresh`). Where a result
  needs it, no such name is the name of a folder of the batch (`RenamesSpareFolders`) or of a small
  upload in the same folder (`RenamesSpareUploads`): a small file "n 1" beside a large file "n" whose
  name is taken would replace the renamed file (`RenamedIsReplaced`).
- The store is the part of the tables that belongs to one user and one workload, since users and
  workloads have disjoint keys. Each upsert is one committed transaction.
- The source is given by what a connector promises: a delta feed holds everything that changed since
  the cursor (`ContactsMirror.DeltaFeed`), an IMAP server delivers under new UIDs, expunges,
  renumbers, and deletes and creates mailboxes (`Imap.Later`). Feeds may repeat ids and come in any
  order unless a contract says otherwise.
- Dates are days of the Gregorian calendar (`MonthsFollowOn`).
- `MessageIdInjective` matters because rows are keyed by text: folder names may contain colons and
  digits, and still no two messages share a row.

## Where the code and its documentation differ

The model follows the code. Each of these is a lemma below.

- TODO.md promises that the children of a failed folder fail instead of falling through to the root.
  This holds for the children of a folder whose own creation raised. A folder that fails because its
  parent failed is not remembered (`files_job.py:316-319`), so the grandchildren of the first folder
  are written at the drive root and recorded as done (`BelowFailedFolder`, `GrandchildFallsToRoot`).
- The listing order of a files pass does matter when a folder that FolderMap already knows is created
  again under another parent or name in the same batch: children processed before it go to the old
  folder, children processed after it to the new one (`OrderIndependence` says exactly when). It also
  matters when a file and a folder want one name in one folder, for only the first of them gets it
  (`NameDecidesOrder`); `DriveOrderIndependence` is the condition for both causes.
- "Its dest_id is kept even when the update fails so the retry never re-creates it"
  (`files_job.py:357-358`) holds for delta passes only; a full pass does not look at the id and
  uploads the file again (`FullPassUploadsAgain`).
- Two small files of one name in one folder overwrite each other although both end `done`
  (`SameNameOverwrites`). All files keep their contents in every listing order exactly if no small
  upload shares its path with the recorded file of another item, with another small upload, or with
  a large upload that can take the path first (`KeptIffNoClash`, `DriveKeptIffNoClash`); a large upload
  that finds its path taken is renamed and replaces nothing.
- A delta that dies between replacing a file and writing its row leaves the old hash on the new content;
  if the old hash comes back, the next delta passes the file over and the cursor moves. `HashesDecide`
  says exactly for which histories of a file this cannot happen.
- A full contacts pass skips a done contact even if it changed, and hears of no deletions, yet moves
  the cursor; `FullPassMirrors` says exactly when its result is still a mirror. Deltas keep the mirror
  under crashes exactly for those histories in which a marker that is used again has meant the same
  contact and body all the time in between (`MarkersDecide`). The connectors take the marker from the
  source's etag or changeKey (`google.py:310`, `m365.py:300`), whose reuse they do not rule out
  (`ReusedMarkerBreaksMirror` is the smallest history that fails).
- The repository's README says that cancelled events are removed. A failing delete and a copy whose
  last update failed are passed over in silence (`CancelledRemoved`), and a removed event can never
  come back, because its row keeps the dead id (`RunsCancelledForGood`).
- When an IMAP SEARCH fails, the folder is passed over although its new cursor entry is recorded: the
  unseen messages below it are lost, and only those (`SearchCovers`). A failed STATUS loses nothing
  (`BadStatusCovers`).
- The classical bound of a token bucket, C + rT, is false of `TokenBucket`: time slept is credited
  again by the next refill (`IdealBoundFails`). It holds when no grant of the window slept
  (`IdealWithoutSleep`); with m threads the bound is C + (m+1)rT (`GrantsBounded`), and it is attained
  (`BoundAttained`), so C + rT holds of all histories only of windows that earn nothing
  (`IdealOnlyWhenIdle`).
- JSON mail import drops parts that are neither files nor text, and plain text beside HTML
  (`JsonCarriesAll`).
- A monthly BYDAY list without a position means every such weekday; the translation keeps one a month,
  and so loses dates unless the rule ends before the second of a month (`EveryWeekdayLost`).

## Model

| member | source | states |
|---|---|---|
| State.Store.UpsertItem | src/migrator/state/db.py:92-127 | an upsert replaces the whole row: a destination id or hash that is not passed is erased |
| State.Store.UpsertFolder | src/migrator/state/db.py:190-215 | the folder row of the path now has the destination id; no other row changes |
| State.Store.SaveCursor | src/migrator/state/db.py:230-240 | the cursor is replaced |
| FilesItems.FolderEnds | src/migrator/workloads/files_job.py:316-339 | a folder whose parent resolves is made or found under it and entered in FolderMap with its id; it fails, is remembered as failed and changes nothing on the drive iff the call raises or a file has its name there |
| FilesItems.FolderStops | src/migrator/workloads/files_job.py:270-297 | a folder below a failed one fails without being remembered, and one whose parent may still come is deferred and changes nothing |
| FilesItems.ParentCases | src/migrator/workloads/files_job.py:270-297 | every item either has exactly one folder it belongs under, or is below a failed folder, or waits for its parent, and never two of these |
| FilesItems.FileStops | src/migrator/workloads/files_job.py:341-375 | a file that is done in a full pass, or has the listed hash in a delta, is left alone; one to skip becomes skipped; one without a recorded destination fails below a failed folder and is deferred while its parent may come |
| FilesItems.FileReplaced | src/migrator/workloads/files_job.py:356-407 | in a delta a file with a recorded destination gets the served content there and is done under its hash; if it cannot be fetched or written it fails and the destination stays recorded |
| FilesItems.FileUploaded | src/migrator/workloads/files_job.py:376-407 | any other file is uploaded under its parent by its final name, or a name that a rename gives if it is large and its name is taken, and is done with that destination; it fails without one if it cannot be fetched or uploaded |
| FilesItems.TakenAre | src/migrator/microsoft/files.py:138-150 | the names a rename avoids are exactly those of the files and folders in the folder |
| FilesAccounting.Accounting | src/migrator/workloads/files_job.py:225-267 | for any parent graph with distinct ids, cycles included: the pass ends within n(n+1)/2 + 2n calls, settles every item exactly once, returns exactly the number of rows left `failed`, ends the others done or skipped and touches no other row |
| FilesAccounting.SweepAccounts | src/migrator/workloads/files_job.py:244-255 | a sweep settles exactly the items it does not return, each once, and counts exactly their failures |
| FilesAccounting.RoundsSettle | src/migrator/workloads/files_job.py:258-267 | the deferral rounds, orphans and cycles included, settle every item still deferred exactly once and count exactly their failures |
| FilesAccounting.RoundsCalls | src/migrator/workloads/files_job.py:258-266 | the rounds over k deferred items make at most k(k+1)/2 + k calls |
| FilesPlacement.OrphanExists | src/migrator/workloads/files_job.py:261-262 | in an acyclic batch some pending item always has a parent that is not pending, so `or remaining` is for cycles only |
| FilesPlacement.Fates | src/migrator/workloads/files_job.py:225-407 | for every acyclic batch listed in any order, with any failures and whatever moves: the status of every row, the folders created, the failed set and the uploads are those of a recursion on the parent graph, and so is the place of every item whose way up has no folder that moves |
| FilesPlacement.Placement | src/migrator/workloads/files_job.py:225-407 | for an acyclic batch listed in any order, with any failures: every row, the folder map, the failed set and the uploads are those of a recursion on the parent graph that knows no order |
| FilesOrder.SteadyIsEnough | src/migrator/workloads/files_job.py:225-297 | two listings of a batch in which no folder moves leave the same rows, folders and uploads, if the same calls raise in both |
| FilesOrder.MovedFolder | src/migrator/workloads/files_job.py:58-69 | if a recorded folder is created anew elsewhere and has a placeable child, two listings put that child in different folders |
| FilesOrder.OrderIndependence | src/migrator/workloads/files_job.py:225-297 | where the same calls raise in every listing order, the placement is the same for every order if and only if no folder of the batch moves under its children (FilesDriveOrder.DriveOrderIndependence has the drive decide which calls raise) |
| FilesOrder.UnderItsParent | src/migrator/workloads/files_job.py:225-297 | without failing calls, name conflicts included: each item to be written ends, in every listing order, under the id FolderMap has for its parent after the pass, and at the root exactly if its parent is unknown, if and only if no recorded folder moves over its children |
| FilesFailures.BelowFailedFolder | src/migrator/workloads/files_job.py:279-331 | in every acyclic batch and listing order, whatever else moves or fails: under a new folder that ended failed, an item ends failed and unwritten iff the folder's own creation raised, and is written at the root iff its grandparent's creation raised |
| FilesFailures.GrandchildFallsToRoot | src/migrator/workloads/files_job.py:316-331 | for folders A, B in A and file X in B where creating A raises, every listing order leaves A and B failed and X done at the drive root |
| FilesNames.NamesStayUnique | src/migrator/microsoft/files.py:77-104 | over any sequence of passes on the drive, with any failures and interruptions: no file and folder ever share a path, and every file that a row names is there |
| FilesNames.ToldPass | src/migrator/workloads/files_job.py:225-267 | if the calls that fail for a name are added to those known to raise, as the ledger of either pass shows them, the pass on the drive and the pass on the plan are the same |
| FilesDriveOrder.PassIsKnown | src/migrator/workloads/files_job.py:225-407 | every pass over an acyclic batch on the drive is one in which the calls that raise are known, so the results on plans hold of it |
| FilesDrive.ForeseenPass | src/migrator/workloads/files_job.py:225-407 | in every listing order the pass on the drive is the one in which exactly the calls raise that were foreseen: those whose name an item of the other kind holds before their turn |
| FilesDriveOrder.DriveOrderIndependence | src/migrator/workloads/files_job.py:225-407 | on the drive an acyclic batch ends the same for every listing order if and only if the calls that raise can be foreseen from the batch, the store and the drive before the pass, and with them no folder moves over its children |
| FilesDriveOrder.NameDecidesOrder | src/migrator/microsoft/files.py:86-104 | a new folder and a new file of one name at the root: no folder moves, and still the listing order decides |
| FilesDriveOrder.DriveKeptIffNoClash | src/migrator/workloads/files_job.py:225-407 | on the drive, for a batch that does not depend on the order: every file that a row names holds what its own item wrote last, in every listing order, if and only if no two items clash |
| FilesRuns.MigrateIsTrace | src/migrator/workloads/files_job.py:244-267 | a pass is a sequence of calls on its own items, so what every sequence of calls keeps, passes and interrupted passes keep |
| FilesRuns.UploadedAtMostOnce | src/migrator/workloads/files_job.py:341-407 | over full passes followed by deltas, with any failures and interruptions: a file is uploaded as new at most once plus once per interruption between upload and row, and from the moment it is recorded its destination never changes, up to any later moment |
| FilesRuns.FullPassUploadsAgain | src/migrator/workloads/files_job.py:341-399 | a full pass over a recorded file whose upload does not raise uploads it again exactly if its row is not done |
| FilesRuns.HashesAreTrue | src/migrator/workloads/files_job.py:341-407 | over any passes, a row with a hash is done and its destination exists and holds the content with that hash unless another item wrote over it (FilesHistory.HashesHold says when none does) |
| FilesRuns.SameNameOverwrites | src/migrator/workloads/files_job.py:385-398 | two small files of one name in one folder end done while only the second content is left (FilesContents.KeptIffNoClash is the exact condition) |
| FilesRuns.RenamedIsReplaced | src/migrator/microsoft/files.py:120-168 | a small file whose name is the one that a large upload was given replaces it, and both end done |
| FilesTurns.PassTurns | src/migrator/workloads/files_job.py:244-267 | a pass settles an acyclic batch by turn, whatever the listing: what resolves, then the orphans, then what the orphans resolve, and so on; in a listing sorted parents first, each turn in the listed order |
| FilesTurns.TurnOver | src/migrator/workloads/files_job.py:258-263 | when no open item resolves, no open item is due in the turn, so the placement of orphans starts the next one |
| FilesTurns.OrphansDue | src/migrator/workloads/files_job.py:261-265 | the orphans of a round are exactly the open items due in the next turn |
| FilesContents.KeptWithoutClash | src/migrator/workloads/files_job.py:354-398 | a pass without a clash, in any listing order, with renames that spare the names of small uploads: every file that a row names holds what its own item wrote last, in this pass what the source served |
| FilesContents.ClashLoses | src/migrator/microsoft/files.py:120-168 | a clash has a listing order after which a file that a row names does not hold what its own item wrote: the small upload goes by path and replaces it, a large one it finds there included |
| FilesContents.KeptIffNoClash | src/migrator/workloads/files_job.py:225-407 | every file keeps its content in every listing order if and only if no two items clash, a condition on the batch, the store and the drive before the pass; renames give free names, and none that a small upload has |
| FilesHistory.HashesHold | src/migrator/workloads/files_job.py:341-407 | over any sequence of full and delta passes without a clash, on a plan or on the drive, from an empty store: every file that a row names was written last by its own item, and every recorded hash is the hash of the file at the destination |
| FilesHashes.HashesDecide | src/migrator/workloads/files_job.py:345-407 | for every history of a file: deltas that fail or die anywhere, among calls for other items, never take a stale file for the current one, if and only if a hash that comes back has meant the same content all the time in between |
| FilesJob.FolderIndex.Resolve | src/migrator/workloads/files_job.py:58-69 | the cache never disagrees with FolderMap: a parent resolves exactly if FolderMap has it, to the recorded folder |
| FilesJob.Job.ParentFor | src/migrator/workloads/files_job.py:270-297 | the stop outcomes and the parent folder: failed if the parent's creation raised, deferred while it may still come, the root otherwise |
| FilesJob.Job.EnsureFolder | src/migrator/microsoft/files.py:77-104 | the folder of the name is found or made, unless the call raises or a file has the name; then nothing changes |
| FilesJob.Job.UploadFile | src/migrator/microsoft/files.py:120-168 | a small file goes to its path unless a folder is there; a large one is renamed if the name is taken |
| FilesJob.Job.ProcessFolderItem | src/migrator/workloads/files_job.py:316-339 | the folder branch computes ProcessFolder, rows, folder map, failed set and drive included; a file of the name makes it raise |
| FilesJob.Job.ProcessFileItem | src/migrator/workloads/files_job.py:341-407 | the file branch computes the value-level step: skip, update in place, upload, failure with the id kept |
| FilesJob.Job.ProcessFile | src/migrator/workloads/files_job.py:300-407 | one call computes Attempt on the whole state |
| FilesJob.Job.Run | src/migrator/workloads/files_job.py:244-255 | the sweep loop computes RunBatch: the deferred items in order, and the failures |
| FilesJob.Job.Retry | src/migrator/workloads/files_job.py:258-266 | one round computes OneRound, and the deferred list gets shorter |
| FilesJob.Job.MigrateItems | src/migrator/workloads/files_job.py:225-267 | the worklist loop ends and computes Migrate on the store, the folder map, the drive and the failure count |
| FilesJob.Job.RunFiles | src/migrator/workloads/files_job.py:93-114 | a delta whose stored cursor is missing or empty changes nothing; every full pass, and every other delta, computes Migrate; the new cursor is stored iff it is given, not empty, and nothing failed, and then every item of the pass is done or skipped |
| FilesJob.CleanPass | src/migrator/workloads/files_job.py:105-114 | a pass that returns no failure left every item done or skipped |
| ContactsPass.DestIdsStayExact | src/migrator/workloads/contacts_job.py:54-116 | in a pass of either mode with any failures and no crash, a row has a destination id exactly as long as that contact is live, and every live contact is the recorded one of its source |
| ContactsPass.CopiesStayBounded | src/migrator/workloads/contacts_job.py:54-116 | in a pass with any failures and crashes, the live copies of a contact exceed the recorded one by at most the crashes between its creation and its row |
| ContactsPass.RunsKeepCopies | src/migrator/workloads/contacts_job.py:52-127 | over any sequence of full and delta passes from an empty store: at most one live copy plus one per such crash, and without crashes the row and the live contact agree exactly |
| ContactsPass.ItemEnds | src/migrator/workloads/contacts_job.py:54-116 | a tombstone deletes the recorded contact and leaves the row skipped without id; a done contact, in a delta one with its marker, is left alone; any other ends done under its marker with its body on the recorded contact or a new one; a raising call, or a contact that is gone, leaves the row failed with its id and nothing else changed |
| ContactsPass.ItemDies | src/migrator/workloads/contacts_job.py:54-116 | a process that dies after the call leaves the destination as a successful call does and the store as it was |
| ContactsPass.FailuresCounted | src/migrator/workloads/contacts_job.py:54-127 | a pass counts at most one failure an item, and none if every recorded contact is live and every call succeeds |
| ContactsMirror.FullPassMirrors | src/migrator/workloads/contacts_job.py:78-83 | a failure-free full pass leaves a mirror of its snapshot iff every contact recorded as done was already in sync and no contact gone from the source has a copy |
| ContactsMirror.FullPassStarts | src/migrator/workloads/contacts_job.py:52-127 | a failure-free full pass on an empty store establishes the invariant from which deltas follow |
| ContactsMirror.RunFollows | src/migrator/workloads/contacts_job.py:53-127 | one delta, whatever fails in it, keeps the invariant relating store, destination, history and cursor; a failure-free one ends in a mirror of the snapshot it names |
| ContactsMirror.DeltasMirror | src/migrator/workloads/contacts_job.py:53-127 | over any deltas in which items fail and the process dies anywhere but between create and row, every failure-free delta leaves exactly one copy of each contact of the snapshot its cursor names, with that body, and no other copy |
| ContactsMirror.ReusedMarkerBreaksMirror | src/migrator/workloads/contacts_job.py:78-95 | with a marker that comes back for another body and then the first again, a crash between an update and its row makes a later failure-free delta leave the wrong body (ContactsMarkers.MarkersDecide is the exact condition) |
| ContactsMarkers.MarkersDecide | src/migrator/workloads/contacts_job.py:53-127 | for every history of snapshots: all deltas after any clean full start, with any failures and crashes but between create and row, end in a mirror when clean, if and only if between two snapshots with the same non-empty marker the contact stays and keeps its body |
| ContactsMarkers.OneMarkerTwoBodies | src/migrator/workloads/contacts_job.py:78-95 | one marker for two bodies of a contact is enough to break the mirror |
| ContactsJob.Job.DeleteContact | src/migrator/microsoft/contacts.py:72-82 | the contact is gone unless the call raises; already gone is no failure |
| ContactsJob.Job.ProcessTombstone | src/migrator/workloads/contacts_job.py:60-76 | computes Tombstone: delete then skipped without id, or failed with the id kept |
| ContactsJob.Job.MigrateContact | src/migrator/workloads/contacts_job.py:85-116 | computes Migrate: patch a recorded contact, create otherwise, keep id and old hash on failure |
| ContactsJob.Job.Process | src/migrator/workloads/contacts_job.py:54-116 | one turn of the loop computes Step |
| ContactsJob.Job.Run | src/migrator/workloads/contacts_job.py:29-127 | the loop computes RunFeed; a delta without a cursor changes nothing; the cursor moves only after a pass that ended without a failure |
| Imap.MessageIdInjective | src/migrator/connectors/imap.py:168 | the textual id determines folder, UIDVALIDITY and UID, whatever characters the folder name has |
| Imap.SearchCovers | src/migrator/connectors/imap.py:142-161 | with `n:*` answered as section 6.4.8 of RFC 3501 has it, the yielded UIDs are all new, and every message below the recorded entry is yielded or known iff SEARCH answered or there was nothing to find |
| Imap.BadStatusCovers | src/migrator/connectors/imap.py:123-130 | the entry of a failed or incomplete STATUS is below every message |
| Imap.CoversLater | src/migrator/connectors/imap.py:138-161 | deliveries, expunges and renumberings after the enumeration uncover nothing |
| Imap.StatusEntry | src/migrator/connectors/imap.py:122-130 | the cursor entry is what STATUS answered; a missing UIDVALIDITY counts as 0 and a missing UIDNEXT as 1 |
| Imap.FromInOrder | src/migrator/connectors/imap.py:157-161 | the found UIDs from the start on are yielded in their order |
| ImapSource.FolderKept | src/migrator/connectors/imap.py:138-161 | STATUS and SEARCH read at different times still leave no message below the entry unenumerated |
| ImapSource.Source.FetchAll | src/migrator/connectors/imap.py:157-195 | every UID of the folder becomes a message in order, unless the connection aborts; the server's ledger of answered FETCH commands gains one entry for each, and a message carries a fetch error iff its answer had no body |
| ImapSource.Source.ReadFolder | src/migrator/connectors/imap.py:138-161 | one folder: unless the server refused its SEARCH, every live message below the recorded entry is enumerated now or was before; unless it refused STATUS, the entry is above every message there was; nothing covered before is yielded again |
| ImapSource.Source.IterMessages | src/migrator/connectors/imap.py:133-163 | the cursor set at the end has exactly the listed folders that are not excluded, covers each whose SEARCH the server did not refuse in this call, and reaches each whose STATUS it did not refuse, on a server that changes between any two commands; a delta yields only new messages; each message reports the answer of its own FETCH |
| MailPass.StepOnce | src/migrator/workloads/mail_job.py:87-131 | an import is followed by done unless the process dies between the two, and a done message gets no further copy in its first folder |
| MailPass.StepStays | src/migrator/workloads/mail_job.py:87-131 | a done row is final; a message that was fetched and imported ends done with the new id and its hash; one that could not be fetched or imported ends failed unless it was done; no other row changes |
| MailPass.ExtrasLand | src/migrator/workloads/mail_job.py:126-131 | each extra copy that lands is one more outside the first folder; a failing one is skipped, and they stop where the process dies |
| MailPass.AtMostOnce | src/migrator/workloads/mail_job.py:86-144 | over any feed, repeated ids included: at most one copy in the first folder per message plus one per crash between import and row, and a done row is final |
| MailPass.OnlyImportedIsDone | src/migrator/workloads/mail_job.py:86-144 | over any feed, with any failures and crashes: only a message that was fetched and imported becomes done; a pass without failure leaves everything it was given done, and met no other message that was not |
| MailPass.RowsKeepNaming | src/migrator/workloads/mail_job.py:104-124 | every done row names the copy of its own message in the first folder |
| MailPass.WellEndsClean | src/migrator/workloads/mail_job.py:86-144 | a pass in which every message is fetched and imported ends without failure, all of it done |
| MailPass.RunsAtMostOnce | src/migrator/workloads/mail_job.py:86-144 | the same bound over any sequence of full and delta passes from an empty store, every done row naming its own copy |
| MailJob.Job.ImportInto | src/migrator/workloads/mail_job.py:65-84 | one successful import adds exactly one primary copy and a new id; a MIME import then patches the flags, and a failing patch changes nothing else |
| MailJob.Job.CopyInto | src/migrator/workloads/mail_job.py:126-131 | the extra copies are best effort: a failing one is skipped and fails nothing |
| MailJob.Job.Process | src/migrator/workloads/mail_job.py:87-131 | one turn of the loop computes Step, the row being written before the extra copies |
| MailJob.Job.ProcessFeed | src/migrator/workloads/mail_job.py:86-131 | the loop computes RunFeed |
| MailJob.StoredCursor | src/migrator/workloads/mail_job.py:133-144 | after a pass without failures the cursor of its enumeration passes no message that is not done |
| MailJob.NoLossLater | src/migrator/connectors/imap.py:138-163 | what the server does between runs, and rows becoming done, lose nothing behind the stored cursor |
| MailJob.ImapMigration.Run | src/migrator/workloads/mail_job.py:32-144 | one run, full or delta, aborted, failing or dying anywhere, on a changing server: the cursor is stored iff nothing aborted and everything enumerated was settled; it then has the listed folders and reaches what they held; no live message below a stored cursor lacks a done row, except in folders whose SEARCH the server refused in this run or, if this run was no stored full one, in an earlier one; a message whose FETCH was answered without a body is not made done, and a run that meets one not done before stores no cursor |
| MailJob.ImapMigration.Runs | src/migrator/workloads/mail_job.py:32-144 | over any sequence of runs from an empty store: nothing is lost except in folders whose SEARCH was refused in one of them, and nothing at all if none was |
| MailJob.CaughtUp | src/migrator/connectors/imap.py:123-163 | after a run that stored its cursor, a message that was there when it began and still is has a done row, unless its folder's SEARCH or STATUS was refused |
| MailFolders.JoinSplit | src/migrator/workloads/mail_job.py:48-51 | joining the segments of a path gives the path back, so the last lookup of the resolver finds it |
| MailFolders.SplitJoin | src/migrator/workloads/mail_job.py:48-51 | splitting a joined prefix gives its segments back |
| MailFolders.PrefixesCached | src/migrator/workloads/mail_job.py:50-62 | every prefix of a cached path is cached |
| MailFolders.DenotesPlace | src/migrator/workloads/mail_job.py:48-62 | the folder that a path stands for lies at the route the path names, segment by segment from the top |
| MailFolders.PathsShareNothing | src/migrator/workloads/mail_job.py:48-62 | two paths stand for one folder only if they are equal |
| MailFolders.TokensNameFolders | src/migrator/microsoft/mail.py:39-82 | the system folders are those of the six tokens, each known by its token in lower case |
| MailFolders.FolderCache.Segment | src/migrator/workloads/mail_job.py:55-58 | a top-level system token is its well-known folder, every other segment the named child of its parent; only the latter asks Graph |
| MailFolders.FolderCache.Extend | src/migrator/workloads/mail_job.py:50-62 | one more segment is cached and stored under the folder it stands for, or nothing changes when the call raises |
| MailFolders.FolderCache.GetFolder | src/migrator/workloads/mail_job.py:45-63 | the result is the folder whose names from the top down are the segments of the path, below the system folder if the first is a token for one; it raises exactly if a segment that is not cached needs a call that raises; the cache stays closed under prefixes and no path is ensured twice |
| CalendarPass.CreatedAtMostOnce | src/migrator/workloads/calendar_job.py:80-122 | over any sequence of main and second loop steps with any failures and crashes, an event that is no occurrence is created at most once plus once per crash between creation and row, and its destination id never changes |
| CalendarPass.CancelledRemoved | src/migrator/workloads/calendar_job.py:216-237 | a cancelled event's copy is removed iff its row is done and the delete does not raise, and the step counts no failure either way |
| CalendarPass.CancelledForGood | src/migrator/workloads/calendar_job.py:96-122 | after such a removal the row keeps the dead id through any sequence of steps, and a step that reinstates the event fails |
| CalendarPass.MainEnds | src/migrator/workloads/calendar_job.py:80-122 | how an item ends in the main loop: left alone, deferred, its copy removed, done under its marker with its body on the recorded event or a new one, or failed with its id and hash and nothing else changed |
| CalendarPass.AppliedEnds | src/migrator/workloads/calendar_job.py:160-213 | a deferred occurrence is left alone if it is done with its marker; it is patched or deleted and recorded if its master is done, its start known, its instance found and the call succeeds; a cancelled one without an instance is skipped; everything else is a failure recorded as failed |
| CalendarPass.ItemDies | src/migrator/workloads/calendar_job.py:80-213 | a process that dies after the call leaves the destination as a successful call does and the store as it was |
| CalendarPass.FailuresCounted | src/migrator/workloads/calendar_job.py:62-135 | a pass over both loops counts at most one failure an item, and one more if the enumeration breaks |
| CalendarClean.CleanPass | src/migrator/workloads/calendar_job.py:62-135 | after a pass over any feed that ends without failure, so that its cursor may move: every event of its own that it was given once is done under its marker with its body on its copy, or was current; a cancelled one is as it was or removed; every changed occurrence is done under its marker with its change on its instance, or was current, or is a cancelled one without an instance and skipped |
| CalendarClean.NothingOpen | src/migrator/workloads/calendar_job.py:62-135 | however a feed repeats its ids, after a pass without failure everything it was given is done or skipped; only a cancelled event of its own may be left as it was |
| CalendarClean.AlwaysSound | src/migrator/workloads/calendar_job.py:80-213 | over any steps from an empty store, a recorded event was made for its own row and only created events are live, as `CleanPass` needs |
| CalendarRuns.PassIsTrace | src/migrator/workloads/calendar_job.py:53-135 | a pass over one calendar, dying anywhere, is a sequence of steps on the items of its feed, with the same torn creations |
| CalendarRuns.RunsCreateOnce | src/migrator/workloads/calendar_job.py:53-135 | over any sequence of full and delta runs, an event is created at most once plus once per crash between creation and row |
| CalendarRuns.RunsKeepDest | src/migrator/workloads/calendar_job.py:80-122 | between any two moments of any sequence of runs, a recorded destination id stays |
| CalendarRuns.ReinstatingFails | src/migrator/workloads/calendar_job.py:96-122 | a run that finds a removed event reinstated never ends clean, so its cursor does not move |
| CalendarRuns.RunsCancelledForGood | src/migrator/workloads/calendar_job.py:96-122 | through any sequence of runs a removed event keeps its dead id, and every run that lists it as live again fails |
| CalendarOrder.ExceptionsSeeAllMasters | src/migrator/workloads/calendar_job.py:88-126 | a deferred occurrence is applied exactly if its master is done with a destination id after the main loop, wherever the two stand in the enumeration; then its occurrence of that series is deleted if it is cancelled, else patched with its body |
| CalendarOrder.EventsUpToDate | src/migrator/workloads/calendar_job.py:80-122 | whatever else the pass does and in whatever order, an event to be migrated ends done under its marker, and its own copy, the recorded one if there was one, has its body |
| CalendarOrder.OrderIndependence | src/migrator/workloads/calendar_job.py:62-135 | any enumeration order leaves the same rows, created events and changed occurrences, and moves the cursor alike |
| CalendarJob.Job.HandleCancelled | src/migrator/workloads/calendar_job.py:216-237 | computes Cancel: only a done row is looked at, a failing delete is swallowed, the row keeps its id |
| CalendarJob.Job.MigrateEvent | src/migrator/workloads/calendar_job.py:104-122 | computes Migrate: patch a recorded event, create otherwise, keep id and hash on failure |
| CalendarJob.Job.ProcessEvent | src/migrator/workloads/calendar_job.py:80-122 | one turn of the main loop computes MainStep |
| CalendarJob.Job.ApplyException | src/migrator/workloads/calendar_job.py:160-213 | computes ApplyStep: unchanged, no master, no start, no instance, deleted, patched, failed |
| CalendarJob.Job.ProcessAll | src/migrator/workloads/calendar_job.py:62-122 | the main loop computes MainLoop, failures and deferred occurrences included |
| CalendarJob.Job.ApplyAll | src/migrator/workloads/calendar_job.py:124-126 | the second loop computes ApplyLoop |
| CalendarJob.Job.Run | src/migrator/workloads/calendar_job.py:53-135 | one calendar computes RunPass; a delta without a cursor is refused; the cursor moves only if nothing failed and the enumeration ended |
| GetOrCreate.CallersAgree | src/migrator/microsoft/files.py:68-117 | for any number of callers interleaved in any way, with listings that miss anything: every call that succeeds returns a folder with its own parent and a name that folds to its own, all of one parent and folded name return the same one, and none succeeds if a file held the name |
| GetOrCreate.PostMakes | src/migrator/microsoft/files.py:86-96 | a folder that a call creates has the call's own parent and name, which nothing held before, and nothing else changes on the drive |
| GetOrCreate.CreatedAtMostOnce | src/migrator/microsoft/files.py:86-104 | a name is created exactly when it was free before and is held after, so at most once however many calls want it |
| GetOrCreate.SucceedsUnlessFile | src/migrator/microsoft/files.py:94-104 | a call none of whose requests fails, and whose second listing is complete, ends with a folder iff no file holds its name |
| EnsureFolder.Drive.FindChild | src/migrator/microsoft/files.py:107-117 | the paged scan returns a folder of that parent and folded name, with others acting between any two pages |
| EnsureFolder.Drive.Post | src/migrator/microsoft/files.py:86-96 | a POST makes the folder, reports the name taken, or raises without effect |
| EnsureFolder.Drive.EnsureFolder | src/migrator/microsoft/files.py:68-104 | the call is one caller of the machine: it returns an id exactly if it ends Done with it, so the theorems on runs hold of it |
| SharePoint.SucceedsWhen | src/migrator/microsoft/sharepoint.py:57-105 | a call succeeds iff the site is recorded, or the group is or can be made, a poll within 30 finds the site with nothing but 404 and 503 before, and the library resolves; it makes at most 32 requests |
| SharePoint.SiteIs | src/migrator/microsoft/sharepoint.py:57-138 | a call for an unrecorded drive returns and records exactly the site that the first decisive poll found with the library that resolved; the group recorded is the one known or created by this call; and it makes exactly the requests that takes |
| SharePoint.OneGroup | src/migrator/microsoft/sharepoint.py:57-96 | over any calls for any drives with any failures, the groups created for a drive are the recorded one and those a call created and did not live to record |
| SharePoint.SameSiteForever | src/migrator/microsoft/sharepoint.py:57-64 | after a success every later call returns the same site and library and asks nothing of Graph |
| SharePoint.Provisioner.PollGroupSite | src/migrator/microsoft/sharepoint.py:117-138 | the loop stops at the first answer that is not 404 or 503, or after 30 |
| SharePoint.Provisioner.EnsureSite | src/migrator/microsoft/sharepoint.py:57-105 | computes Ensure on the rows, the created groups and the requests |
| RateLimit.TokenBucket.constructor | src/migrator/ratelimit.py:11-16 | starts full; a missing or zero capacity means one second of tokens |
| RateLimit.TokenBucket.Acquire | src/migrator/ratelimit.py:18-32 | computes Take, and keeps the tokens between zero and the capacity |
| RateLimit.OneToken | src/migrator/ratelimit.py:18-26 | what a call takes from the bucket and what it sleeps add up to the one token it asked for |
| RateLimit.SleepsFit | src/migrator/ratelimit.py:25-26 | m threads that sleep out each grant sleep at most m times the window on the grants within it |
| RateLimit.GrantsBounded | src/migrator/ratelimit.py:18-32 | with m sequential threads, the calls begun and granted in a window of length T number at most C + (m+1)rT |
| RateLimit.GrantsPaid | src/migrator/ratelimit.py:18-32 | the grants of a window number at most C + rT plus r times the sleep within the window |
| RateLimit.IdealWithoutSleep | src/migrator/ratelimit.py:18-32 | the classical bound C + rT holds of every window whose grants did not sleep |
| RateLimit.BoundAttained | src/migrator/ratelimit.py:18-32 | for every rate, whole capacity and number m of threads, and every window in which k tokens are earned, some calls get exactly C + (m+1)k grants, so no smaller factor will do |
| RateLimit.IdealOnlyWhenIdle | src/migrator/ratelimit.py:18-32 | for every rate, whole capacity and number of threads, all histories keep within C + k grants in windows that earn k tokens if and only if k is zero |
| RateLimit.IdealBoundFails | src/migrator/ratelimit.py:28-32 | at one token a second and capacity one, one thread gets three grants within one second |
| RecurrenceMeaning.TranslationKeepsDates | src/migrator/transform/recurrence.py:7-89 | for the rules Graph can express, the result exists and has exactly the dates of the rule under section 3.3.10 of RFC 5545, COUNT and UNTIL included |
| RecurrenceMeaning.OrdinalSame | src/migrator/transform/recurrence.py:139-144 | one ordinal weekday, alone or with a BYSETPOS that the ordinal overrides, is the indexed instance of that weekday in the month, counted from the start or the end |
| RecurrenceMeaning.SetPosSame | src/migrator/transform/recurrence.py:145-147 | BYSETPOS on a plain weekday list is the indexed instance among those days |
| RecurrenceMeaning.AbsoluteSame | src/migrator/transform/recurrence.py:127-136 | a single day of the month, from BYMONTHDAY or the start, is the day of the pattern |
| RecurrenceMeaning.WeeklySame | src/migrator/transform/recurrence.py:27-35 | the weekdays of a weekly rule, from BYDAY or the start, are those of the pattern |
| Recurrence.TranslatedWhen | src/migrator/transform/recurrence.py:7-136 | a rule is translated iff it is daily, weekly, monthly or yearly, BYMONTHDAY, if a monthly or yearly one has it, holds a positive day, and BYMONTH, if a yearly one has it, begins with a month |
| Recurrence.FirstPositiveIs | src/migrator/transform/recurrence.py:127-136 | the day of the month is the first positive entry, if there is one |
| Recurrence.Defaults | src/migrator/transform/recurrence.py:20-26 | an interval that is absent or zero becomes one; a position other than 2, 3, 4 or -1 becomes the first |
| RecurrenceLosses.LateDaySame | src/migrator/transform/recurrence.py:46-75 | where Graph moves a late day to the end of a short month, a rule on one day, monthly or yearly, keeps its dates, COUNT and UNTIL included, iff no short month that it visits falls within its range |
| RecurrenceLosses.EveryWeekdayLost | src/migrator/transform/recurrence.py:139-147 | a monthly weekday list without ordinal or position keeps its dates iff the rule ends before the second listed weekday of a month; without an end it always loses dates |
| RecurrenceLosses.PartSame | src/migrator/transform/recurrence.py:78-89 | a series and a part of it have the same dates under COUNT or UNTIL iff the first missing date is past the end |
| Crlf.NormalizeScans | src/migrator/microsoft/mail.py:600-608 | the three replacements equal one left-to-right scan |
| Crlf.ScanKeepsLines | src/migrator/microsoft/mail.py:600-608 | the lines, split at CRLF, CR or LF, stay the same |
| Crlf.NormalizeCrlf | src/migrator/microsoft/mail.py:600-608 | no bare line ending remains, the length at most doubles, a message changes iff it has a bare ending, and normalizing twice is normalizing once |
| Mime.PruneSplits | src/migrator/microsoft/mail.py:634-653 | in a multipart message the leaves that stay are, in order, exactly those that are not extractable attachments |
| Mime.PruneConserves | src/migrator/microsoft/mail.py:634-656 | every leaf stays or is extracted, and not both, iff the root is not itself an attachment |
| Mime.PruneKeepsNesting | src/migrator/microsoft/mail.py:644-647 | no multipart is dropped or moved, and pruning again changes nothing |
| Mime.PruneTakes | src/migrator/microsoft/mail.py:634-653 | a leaf of a multipart message is taken out iff it is marked as an attachment and, if it is an embedded message, can be serialized |
| Mime.FilesCarry | src/migrator/microsoft/mail.py:634-656 | the files of the leaves chosen are those leaves, in order, each with its name, type and bytes |
| Mime.JsonSorts | src/migrator/microsoft/mail.py:486-526 | files are the embedded messages that can be serialized and the contents marked as attachments, named, or inline and no text; of the rest HTML and plain text go to the bodies |
| Mime.JsonCarriesAll | src/migrator/microsoft/mail.py:481-531 | JSON import carries every leaf iff each is a file, HTML or plain text, and no plain text stands beside HTML |
| MimeParts.Part.PruneChildren | src/migrator/microsoft/mail.py:645 | the children are pruned in place, in order, and the kept ones are those PrunedAll keeps |
| MimeParts.Part.Prune | src/migrator/microsoft/mail.py:634-653 | the part becomes its pruned tree in place, tells the parent whether to drop it, and its attachments are appended in document order |
| MimeParts.SplitLargeAttachments | src/migrator/microsoft/mail.py:623-656 | the message is stripped in place; what it keeps and what is returned are, in order, its staying and its extracted leaves |
| MimeParts.Part.Visit | src/migrator/microsoft/mail.py:486-526 | the walk gathers the files, the HTML and the plain text of the leaves, each in document order |
| MimeParts.GraphBodyAndAttachments | src/migrator/microsoft/mail.py:481-531 | the body is the HTML leaves joined if there are any, else the plain-text leaves; the attachments are the file leaves |
| MimeParts.ConcatJoins | src/migrator/microsoft/mail.py:527-531 | the body texts are joined one after the other |

## Left out

- HTTP, authentication, Google and Graph clients, imaplib and retries: only "the call succeeds or raises" and what a feed promises are kept.
- The command line, configuration, progress display, report, whatif inventories and logging: input and output only.
- SQLAlchemy, SQLite and thread pools: the store is maps with one transaction per upsert, and one user's runs are modelled at a time. `attempts`, `last_error` and the time stamps of the rows are not modelled.
- `run_shared_drives` and `run_sharepoint_sites` around `_migrate`, `ensure_onedrive`, and the loop over several calendars: each calendar and drive has keys of its own, so these would repeat the same statements.
- Feeds are read completely before they are processed; in the source they are generators. `ImapMigration.Run` hands on a prefix when the enumeration aborts.
- Case folding of names is a parameter (`fold`) in `get_or_create`, and names are taken as folded in `files_pass`, where `ensure_folder` is one call: it finds or makes the folder, or raises if a file has the name, as `GetOrCreate.SucceedsUnlessFile` has it. Others who change the drive during a files pass are not modelled there.
- Chunked uploads, upload sessions, and the root id lookup failing on its own: an upload is one call.
- Message import that fails after the message was created (attachments are added afterwards) is not modelled: an import succeeds or has no effect. Contact photos are best effort in the source and left out.
- Contact folders, and the field mapping of contacts and events: bodies are opaque, and a PATCH replaces the body.
- An expired People token, which lists again without tombstones, is outside the contract of `ContactsMirror.DeltaFeed`.
- A text RRULE is parsed before `Recurrence` starts: splitting at `;` and `=`, and reading numbers and weekdays with regular expressions, are not modelled; UNTIL is a date.
- TranslationKeepsDates: rules outside `Expressible` are not covered: BY parts that the translation ignores or collapses (BYMONTH outside YEARLY, BYMONTHDAY lists, BYDAY with BYMONTHDAY, YEARLY BYDAY without BYMONTH, DAILY with BY parts, ordinals other than 1 to 4 and -1); for them the translation may change the dates.
- UploadedAtMostOnce: a full pass after a delta is outside it, because there the code uploads again (`FullPassUploadsAgain`). So is an item that is later classified as one to skip (`TreatsAsFile`): the upsert then erases its destination id, and it is uploaded as new when it comes back.
- HashesAreTrue: an interruption between a write and its row is outside it, because the row then describes the content before the write; `HashesDecide` says when that matters.
- OrderIndependence: the calls that raise are the same in both orders; on the drive, where an order can decide which call fails for a name, see `DriveOrderIndependence`.
- DriveOrderIndependence: needs a drive on which no file and folder share a path and every recorded file exists, as every pass keeps it (`NamesStayUnique`), and renames that give free names and none of a folder of the batch (`GoodDrive`).
- KeptIffNoClash: a batch that uploads below a recorded folder that moves is outside it (`PlacesKnown`), because the path then depends on the listing order (`OrderIndependence`). The name that a rename gives is never the name of a small upload of the batch in the same folder, and no folder holds the path of a small upload, which would raise (`NamesApart`).
- HashesHold: passes that run to their end, with renames that spare the names of small uploads (`NamesApart`, `RenamesSpareUploads`); a pass that dies between two files is covered by `HashesAreTrue` alone.
- CalendarClean.CleanPass: an item whose id, or whose occurrence, the feed holds twice is outside it, because the last of them decides; so is an occurrence whose master is, or is recorded as, itself an occurrence (`AloneInSeries`, `MasterMade`). `NothingOpen` holds of them all.
- DeltasMirror: a crash between creating a contact and recording it is outside it, because it leaves a second copy (`CopiesStayBounded` counts those).
- The MIME parser and serializer, base64, header dates and the trace-header clean-up: messages are trees of parts, and decoding a leaf gives its bytes.
- `transform/paths.py`, label and identity maps, and the Microsoft 365 time stamp cursors: table lookups, string clean-up and wall clocks.
- Registering named limiters: `RateLimiterRegistry` and `PerUserRateLimiter` only hold buckets.
