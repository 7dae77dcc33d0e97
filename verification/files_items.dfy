/** How one item of a files pass ends (_process_file), said outright: what its row becomes, what is written to
    the drive and where, and that nothing else changes. */
module FilesItems {
  import opened Wrappers
  import opened State
  import opened FilesPass

  /** The item belongs under the folder: its parent's, or the root if it has none, or if it is placed as an
      orphan. */
  predicate Belongs(s: Pass, f: SourceFile, defer: bool, folder: DriveItem) {
    match f.parentId
    case None => folder == Root
    case Some(p) => if p in s.folderMap then folder == s.folderMap[p] else p !in s.failed && !defer && folder == Root
  }

  predicate BelowFailed(s: Pass, f: SourceFile) {
    f.parentId.Some? && f.parentId.value !in s.folderMap && f.parentId.value in s.failed
  }

  /** Its parent may still come. */
  predicate MustWait(s: Pass, f: SourceFile, defer: bool) {
    f.parentId.Some? && f.parentId.value !in s.folderMap && f.parentId.value !in s.failed && defer
  }

  /** The row of the item is written, and nothing else of the store. */
  ghost predicate OnlyRow(s: Pass, s': Pass, id: SourceId, row: Row<DriveItem>) {
    && id in s'.rows && s'.rows[id] == row
    && forall k: SourceId :: k != id ==> (k in s'.rows <==> k in s.rows) && (k in s.rows ==> s'.rows[k] == s.rows[k])
  }

  /** Every item is in exactly one of these cases. */
  lemma ParentCases(s: Pass, f: SourceFile, defer: bool)
    ensures (exists folder :: Belongs(s, f, defer, folder)) <==> !BelowFailed(s, f) && !MustWait(s, f, defer)
    ensures !(BelowFailed(s, f) && MustWait(s, f, defer))
    ensures forall a, b :: Belongs(s, f, defer, a) && Belongs(s, f, defer, b) ==> a == b
  {
    match f.parentId
    case None => assert Belongs(s, f, defer, Root);
    case Some(p) =>
      if p in s.folderMap { assert Belongs(s, f, defer, s.folderMap[p]); }
      else if p !in s.failed && !defer { assert Belongs(s, f, defer, Root); }
  }

  /** A folder whose parent has failed fails too, and one whose parent may still come is deferred. */
  lemma FolderStops(env: Env, s: Pass, f: SourceFile, defer: bool)
    requires f.isFolder
    ensures var (s', o) := Attempt(env, s, f, defer);
            && (BelowFailed(s, f) ==> o == Fail && OnlyRow(s, s', f.sourceId, Row(Failed, None, None)) && s'.(rows := s.rows) == s)
            && (MustWait(s, f, defer) ==> o == Defer && s' == s)
  {
  }

  /** Any other is made, or found, under its parent and entered in FolderMap; unless the call raises, or a file
      has its name there: then it fails and is remembered as failed. */
  lemma FolderEnds(env: Env, s: Pass, f: SourceFile, defer: bool, folder: DriveItem)
    requires f.isFolder && Belongs(s, f, defer, folder)
    ensures var (s', o) := Attempt(env, s, f, defer);
            var id, dest := f.sourceId, FolderIn(folder, f.name);
            var fileInTheWay := env.names == OnDrive && FileIn(folder, f.name) in s.drive.contents && dest !in s.drive.folders;
            if id in env.raises || fileInTheWay then
              && o == Fail && OnlyRow(s, s', id, Row(Failed, None, None))
              && s'.folderMap == s.folderMap && s'.failed == s.failed + {id} && s'.drive == s.drive
            else
              && o == Ok && OnlyRow(s, s', id, Row(Done, Some(dest), f.contentHash))
              && s'.folderMap == s.folderMap[id := dest] && s'.failed == s.failed
              && s'.drive.folders == s.drive.folders + {dest}
              && s'.drive.contents == s.drive.contents && s'.drive.uploads == s.drive.uploads
  {
  }

  /** The file is left alone: done in a full pass, with the listed hash in a delta. */
  predicate LeftAlone(env: Env, s: Pass, f: SourceFile) {
    && f.sourceId in s.rows
    && if env.mode == Full then s.rows[f.sourceId].status == Done
       else s.rows[f.sourceId].sourceHash != None && s.rows[f.sourceId].sourceHash == f.contentHash
  }

  /** What a delta pass finds recorded for the file. */
  function Recorded(env: Env, s: Pass, id: SourceId): Option<DriveItem> {
    if env.mode == Delta && id in s.rows then s.rows[id].destId else None
  }

  lemma FileStops(env: Env, s: Pass, f: SourceFile, defer: bool)
    requires !f.isFolder
    ensures var (s', o) := Attempt(env, s, f, defer);
            && s'.folderMap == s.folderMap && s'.failed == s.failed && s'.drive.folders == s.drive.folders
            && if LeftAlone(env, s, f) then o == Ok && s' == s
               else if f.skip then o == Ok && OnlyRow(s, s', f.sourceId, Row(Skipped, None, None)) && s'.drive == s.drive
               else Recorded(env, s, f.sourceId) == None ==>
                 && (BelowFailed(s, f) ==> o == Fail && OnlyRow(s, s', f.sourceId, Row(Failed, None, None)) && s'.drive == s.drive)
                 && (MustWait(s, f, defer) ==> o == Defer && s' == s)
  {
  }

  predicate Served(env: Env, id: SourceId) {
    id in env.fetched && id !in env.raises
  }

  /** A file with a recorded destination is replaced there; if it cannot be fetched or written, it fails and the
      destination stays recorded. */
  lemma FileReplaced(env: Env, s: Pass, f: SourceFile, defer: bool)
    requires !f.isFolder && !LeftAlone(env, s, f) && !f.skip && Recorded(env, s, f.sourceId).Some?
    ensures var (s', o) := Attempt(env, s, f, defer);
            var id, dest := f.sourceId, Recorded(env, s, f.sourceId).value;
            if Served(env, id) then
              && o == Ok && OnlyRow(s, s', id, Row(Done, Some(dest), f.contentHash))
              && s'.drive.contents == s.drive.contents[dest := File(id, env.fetched[id].content)] && s'.drive.uploads == s.drive.uploads
            else o == Fail && OnlyRow(s, s', id, Row(Failed, Some(dest), None)) && s'.drive == s.drive
  {
  }

  /** Any other file is uploaded under its parent: a small one to its final name, unless a folder has it; a large one
      to its final name if nothing has it, and to a name that a rename gives otherwise. If it cannot be
      fetched or uploaded, it fails. */
  lemma FileUploaded(env: Env, s: Pass, f: SourceFile, defer: bool, folder: DriveItem)
    requires !f.isFolder && !LeftAlone(env, s, f) && !f.skip && Recorded(env, s, f.sourceId) == None && Belongs(s, f, defer, folder)
    ensures var (s', o) := Attempt(env, s, f, defer);
            var id := f.sourceId;
            if !Served(env, id) then o == Fail && OnlyRow(s, s', id, Row(Failed, None, None)) && s'.drive == s.drive
            else
              var file := env.fetched[id];
              var plain, small := FileIn(folder, file.finalName), |file.content| <= 4 * 1024 * 1024;
              var folderInTheWay := FolderIn(folder, file.finalName) in s.drive.folders;
              if small && folderInTheWay && env.names == OnDrive then
                o == Fail && OnlyRow(s, s', id, Row(Failed, None, None)) && s'.drive == s.drive
              else
                && o == Ok && id in s'.rows && s'.rows[id].destId.Some?
                && var dest := s'.rows[id].destId.value;
                   && OnlyRow(s, s', id, Row(Done, Some(dest), f.contentHash))
                   && s'.drive.contents == s.drive.contents[dest := File(id, file.content)]
                   && s'.drive.uploads == s.drive.uploads + multiset{id}
                   && if small || (plain !in s.drive.contents && !folderInTheWay) then dest == plain
                      else dest == FileIn(folder, env.rename(file.finalName, Taken(s.drive, folder)))
  {
    hide Taken, ProcessFolder, Belongs;
    FileUnder(s, f, defer, folder);
    hide ParentOf;
  }

  lemma FileUnder(s: Pass, f: SourceFile, defer: bool, folder: DriveItem)
    requires Belongs(s, f, defer, folder)
    ensures ParentOf(s, f, defer) == Under(folder)
  {
  }

  /** The names that a rename avoids: those of the files and folders in the folder. */
  lemma TakenAre(drive: Drive, folder: DriveItem, name: string)
    ensures name in Taken(drive, folder) <==> FileIn(folder, name) in drive.contents || FolderIn(folder, name) in drive.folders
  {
    if FileIn(folder, name) in drive.contents { assert FileIn(folder, name).name in Taken(drive, folder); }
    if FolderIn(folder, name) in drive.folders { assert FolderIn(folder, name).name in Taken(drive, folder); }
  }
}
