/** When files keep their contents. A small upload goes by path and replaces what is there, so two files
    of one name in one folder can end as one; the condition is exact over all listing orders. */
module FilesContents {
  import opened Wrappers
  import opened State
  import opened FilesPass
  import opened FilesAccounting
  import opened FilesPlacement
  import opened FilesOrder
  import opened FilesRuns
  import opened FilesTurns

  /** The item is written again into the file that its row names. */
  predicate Replaces(pl: Plan, id: SourceId)
    requires id in pl.items
  {
    var f := pl.items[id];
    !f.isFolder && !UpToDate(pl.env, pl.start.rows, f) && !f.skip
    && Existing(pl.env, pl.start.rows, f).Some? && Served(pl.env, id)
  }

  /** The pass leaves the item the destination that its row names, if any. */
  predicate KeepsRow(pl: Plan, id: SourceId) {
    id !in pl.items ||
    var f := pl.items[id];
    !f.isFolder && (UpToDate(pl.env, pl.start.rows, f) || (!f.skip && Existing(pl.env, pl.start.rows, f).Some?))
  }

  /** The name by which the item is uploaded, in the folder where it belongs. */
  function Path(pl: Plan, id: SourceId): DriveItem
    requires ValidPlan(pl) && id in pl.items && Uploads(pl, id)
  {
    FileIn(Home(pl, id).folder, pl.env.fetched[id].finalName)
  }

  predicate Small(pl: Plan, id: SourceId)
    requires ValidPlan(pl) && id in pl.items && Uploads(pl, id)
  {
    IsSmall(pl.env.fetched[id])
  }

  ghost predicate FileOf(s: Pass, id: SourceId, dest: DriveItem) {
    id in s.rows && s.rows[id].destId == Some(dest) && dest.FileIn?
  }

  /** Every file that a row names is there, and the item of the row wrote it last. */
  ghost predicate OwnFiles(s: Pass) {
    forall id, dest :: FileOf(s, id, dest) ==> dest in s.drive.contents && s.drive.contents[dest].author == id
  }

  /** A rename gives a name that is free. */
  ghost predicate Fresh(rename: Rename) {
    forall name: string, taken: set<string> :: rename(name, taken) !in taken
  }

  /** Renames give free names, and none that a small upload has in the same folder; and no folder holds the
      path of a small upload, which would raise. */
  ghost predicate NamesApart(pl: Plan)
    requires ValidPlan(pl)
  {
    && Fresh(pl.env.rename) && RenamesSpareUploads(pl)
    && (forall b <- pl.items :: Uploads(pl, b) && Small(pl, b) ==> NoFolderAt(pl, Path(pl, b)))
  }

  ghost predicate RenamesSpareUploads(pl: Plan)
    requires ValidPlan(pl)
  {
    forall x <- pl.items, b <- pl.items ::
      Uploads(pl, x) && !Small(pl, x) && Uploads(pl, b) && Small(pl, b) ==> !IsRenamed(pl, x, Path(pl, b))
  }

  /** No folder has the path, and none is created there. */
  ghost predicate NoFolderAt(pl: Plan, path: DriveItem)
    requires ValidPlan(pl) && path.FileIn?
  {
    && FolderIn(path.parent, path.name) !in pl.start.drive.folders
    && forall p <- pl.items :: Created(pl, p).Some? && pl.items[p].name == path.name ==>
         Sure(pl, p) && Created(pl, p).value.parent != path.parent
  }

  /** A name in the right folder that a rename can give to the item. */
  ghost predicate IsRenamed(pl: Plan, id: SourceId, dest: DriveItem)
    requires ValidPlan(pl) && id in pl.items && Uploads(pl, id)
  {
    dest.FileIn? && dest.parent == Home(pl, id).folder
    && RenamedTo(pl.env, id, dest.name)
  }

  /** The places of all uploads are known before the pass. */
  ghost predicate PlacesKnown(pl: Plan)
    requires ValidPlan(pl)
  {
    forall id <- pl.items :: Uploads(pl, id) ==> Sure(pl, id)
  }

  // ----- what one call does ----------------------------------------------------------------

  ghost predicate UploadDone(pl: Plan, s: Pass, s': Pass, id: SourceId)
    requires ValidPlan(pl) && id in pl.items && Uploads(pl, id)
  {
    var dest := UploadTarget(pl.env, s.drive, id, Home(pl, id).folder);
    s'.drive == Upload(s.drive, id, dest, pl.env.fetched[id].content) && FileOf(s', id, dest)
  }

  ghost predicate ReplaceDone(pl: Plan, s: Pass, s': Pass, id: SourceId)
    requires ValidPlan(pl) && id in pl.items && Replaces(pl, id)
  {
    var dest := pl.start.rows[id].destId.value;
    s'.drive == Replace(s.drive, id, dest, pl.env.fetched[id].content)
    && id in s'.rows && s'.rows[id].destId == Some(dest)
  }

  ghost predicate NothingWritten(pl: Plan, s: Pass, s': Pass, id: SourceId)
    requires id in pl.items
  {
    && s'.drive.contents == s.drive.contents && id in s'.rows
    && if KeepsRow(pl, id) then id in pl.start.rows && s'.rows[id].destId == pl.start.rows[id].destId
       else s'.rows[id].destId.None? || (pl.items[id].isFolder && s'.rows[id].destId.value.FolderIn?)
  }

  /** A folder that is new on the drive is the one created for the item, and that one is there. */
  ghost predicate FoldersMade(pl: Plan, s: Pass, s': Pass, id: SourceId)
    requires ValidPlan(pl) && id in pl.items
  {
    && s.drive.folders <= s'.drive.folders
    && (Created(pl, id).Some? && Sure(pl, id) ==> Created(pl, id).value in s'.drive.folders)
    && forall d <- s'.drive.folders :: d in s.drive.folders ||
         (d.FolderIn? && d.name == pl.items[id].name && Created(pl, id).Some? && (Sure(pl, id) ==> d == Created(pl, id).value))
  }

  ghost predicate Effect(pl: Plan, s: Pass, s': Pass, id: SourceId)
    requires ValidPlan(pl) && id in pl.items
  {
    && SameOutside(s.rows, s'.rows, {id}) && FoldersMade(pl, s, s', id)
    && (if Uploads(pl, id) then UploadDone(pl, s, s', id)
        else if Replaces(pl, id) then ReplaceDone(pl, s, s', id)
        else NothingWritten(pl, s, s', id))
  }

  lemma FolderEffect(pl: Plan, s: Pass, f: SourceFile, target: Target)
    requires ValidPlan(pl) && f.sourceId in pl.items && pl.items[f.sourceId] == f && f.isFolder
    requires Agrees(pl, target, f.sourceId)
    ensures var (s', o) := ProcessFolder(pl.env, s, f, target);
            if o.Defer? then s' == s else Effect(pl, s, s', f.sourceId)
  {
    hide Home, Sure;
  }

  lemma ContentEffect(pl: Plan, s: Pass, f: SourceFile, target: Target)
    requires ValidPlan(pl) && f.sourceId in pl.items && pl.items[f.sourceId] == f && !f.isFolder
    requires SameRow(pl.start.rows, s.rows, f.sourceId) && Agrees(pl, target, f.sourceId)
    requires Uploads(pl, f.sourceId) ==> Sure(pl, f.sourceId)
    requires !UpToDate(pl.env, s.rows, f) && !f.skip
    ensures var (s', o) := ProcessContent(pl.env, s, f, target);
            if o.Defer? then s' == s else Effect(pl, s, s', f.sourceId)
  {
    hide Home, Sure, UploadTarget;
    UploadPath(pl.env, s.drive, target, f.sourceId);
  }

  lemma AttemptEffect(pl: Plan, s: Pass, f: SourceFile, defer: bool)
    requires ValidPlan(pl) && PlacesKnown(pl) && f.sourceId in pl.items && pl.items[f.sourceId] == f
    requires SameRow(pl.start.rows, s.rows, f.sourceId) && Agrees(pl, ParentOf(s, f, defer), f.sourceId)
    ensures var (s', o) := Attempt(pl.env, s, f, defer);
            if o.Defer? then s' == s else Effect(pl, s, s', f.sourceId)
  {
    hide Home, ParentOf, Sure;
    var target := ParentOf(s, f, defer);
    if f.isFolder {
      FolderEffect(pl, s, f, target);
    } else if !UpToDate(pl.env, s.rows, f) && !f.skip {
      hide ProcessContent;
      ContentEffect(pl, s, f, target);
    }
  }

  lemma OpenAfter(pl: Plan, s: Pass, f: SourceFile, defer: bool)
    requires f.sourceId in Open(pl, s)
    ensures var (s', o) := Process(pl.env, s, f, defer);
            Open(pl, s') == if o.Defer? then Open(pl, s) else Open(pl, s) - {f.sourceId}
  {
    hide Attempt;
  }

  /** A call in turn changes nothing, or settles its item: uploaded, replaced, or not written. */
  lemma CallEffect(pl: Plan, s: Pass, e: Event, key: Option<Key>)
    requires ValidPlan(pl) && PlacesKnown(pl) && InTurn(pl, s, e, key)
    ensures var s', id := Apply(s, e), e.f.sourceId;
            || (Open(pl, s') == Open(pl, s) && s'.rows == s.rows && s'.drive == s.drive)
            || (Open(pl, s') == Open(pl, s) - {id} && Next(pl, Open(pl, s), id, key) && Effect(pl, s, s', id))
  {
    hide Attempt, Effect, Next, Agrees, PlacesKnown, ParentOf;
    AttemptEffect(pl, s, e.f, e.defer);
    OpenAfter(pl, s, e.f, e.defer);
    if Effect(pl, s, Attempt(pl.env, s, e.f, e.defer).0, e.f.sourceId) { EffectSame(pl, s, e.f, e.defer); }
  }

  lemma EffectSame(pl: Plan, s: Pass, f: SourceFile, defer: bool)
    requires ValidPlan(pl) && f.sourceId in pl.items && Effect(pl, s, Attempt(pl.env, s, f, defer).0, f.sourceId)
    ensures Effect(pl, s, Process(pl.env, s, f, defer).0, f.sourceId)
  {
    hide Attempt, Uploads, Replaces, KeepsRow, UploadTarget, Home, Created, Sure;
  }

  // ----- rows: true of every pass ----------------------------------------------------------

  /** Small files go by path; a large one is renamed if its path was taken when the pass began. */
  ghost predicate LandedAt(pl: Plan, id: SourceId, dest: DriveItem)
    requires ValidPlan(pl) && id in pl.items && Uploads(pl, id)
  {
    if Small(pl, id) then dest == Path(pl, id)
    else (dest == Path(pl, id) && dest !in pl.start.drive.contents) || IsRenamed(pl, id, dest)
  }

  ghost predicate RowOk(pl: Plan, rows: Rows, open: set<SourceId>, id: SourceId)
    requires ValidPlan(pl)
  {
    if id !in pl.items || id in open then SameRow(pl.start.rows, rows, id)
    else
      && id in rows
      && if Uploads(pl, id) then rows[id].destId.Some? && LandedAt(pl, id, rows[id].destId.value)
         else if KeepsRow(pl, id) then id in pl.start.rows && rows[id].destId == pl.start.rows[id].destId
         else rows[id].destId.None? || (pl.items[id].isFolder && rows[id].destId.value.FolderIn?)
  }

  ghost predicate SettledFirst(pl: Plan, open: set<SourceId>)
    requires ValidPlan(pl) && open <= pl.items.Keys
  {
    forall x <- pl.items, y <- open :: x !in open ==> Turn(pl, x) <= Turn(pl, y)
  }

  ghost predicate Ordered(pl: Plan, s: Pass, open: set<SourceId>)
    requires ValidPlan(pl) && open <= pl.items.Keys
  {
    && (forall id: SourceId :: RowOk(pl, s.rows, open, id)) && SettledFirst(pl, open)
    && pl.start.drive.contents.Keys <= s.drive.contents.Keys
  }

  lemma OrderedStarts(pl: Plan)
    requires ValidPlan(pl)
    ensures Open(pl, pl.start) == pl.items.Keys && Ordered(pl, pl.start, Open(pl, pl.start))
  {
    hide Turn, Uploads, KeepsRow;
  }

  lemma UploadLands(pl: Plan, s: Pass, s': Pass, id: SourceId)
    requires ValidPlan(pl) && id in pl.items && Uploads(pl, id) && UploadDone(pl, s, s', id)
    requires pl.start.drive.contents.Keys <= s.drive.contents.Keys
    ensures LandedAt(pl, id, s'.rows[id].destId.value)
    ensures s.drive.contents.Keys <= s'.drive.contents.Keys
  {
    hide Home, Uploads;
  }

  lemma ReplaceStays(pl: Plan, s: Pass, s': Pass, id: SourceId)
    requires ValidPlan(pl) && id in pl.items && Replaces(pl, id) && ReplaceDone(pl, s, s', id)
    requires OwnFiles(pl.start) && pl.start.drive.contents.Keys <= s.drive.contents.Keys
    ensures s.drive.contents.Keys <= s'.drive.contents.Keys
    ensures KeepsRow(pl, id) && id in pl.start.rows && pl.start.rows[id].destId.Some?
  {
    var dest := pl.start.rows[id].destId.value;
    if dest.FileIn? { assert FileOf(pl.start, id, dest); }
  }

  lemma EffectRow(pl: Plan, s: Pass, s': Pass, open: set<SourceId>, id: SourceId)
    requires ValidPlan(pl) && open <= pl.items.Keys && id in open && Ordered(pl, s, open) && OwnFiles(pl.start)
    requires Effect(pl, s, s', id)
    ensures RowOk(pl, s'.rows, open - {id}, id)
    ensures s.drive.contents.Keys <= s'.drive.contents.Keys
  {
    hide Home, Uploads, Replaces, UploadTarget, LandedAt, OwnFiles, Turn, KeepsRow;
    if Uploads(pl, id) { UploadLands(pl, s, s', id); }
    else if Replaces(pl, id) { ReplaceStays(pl, s, s', id); }
  }

  lemma FirstSettled(pl: Plan, open: set<SourceId>, id: SourceId, key: Option<Key>)
    requires ValidPlan(pl) && open <= pl.items.Keys && id in open && SettledFirst(pl, open) && Next(pl, open, id, key)
    ensures SettledFirst(pl, open - {id})
  {
    hide Turn, Earlier;
  }

  lemma OrderedEffect(pl: Plan, s: Pass, s': Pass, open: set<SourceId>, id: SourceId, key: Option<Key>)
    requires ValidPlan(pl) && open <= pl.items.Keys && id in open && Ordered(pl, s, open) && OwnFiles(pl.start)
    requires Next(pl, open, id, key) && Effect(pl, s, s', id)
    ensures Ordered(pl, s', open - {id})
  {
    EffectRow(pl, s, s', open, id);
    FirstSettled(pl, open, id, key);
    hide UploadDone, ReplaceDone, NothingWritten, Uploads, Replaces, LandedAt, KeepsRow, Turn, OwnFiles, SettledFirst, Next;
    forall k: SourceId | k != id ensures RowOk(pl, s'.rows, open - {id}, k) {
      assert RowOk(pl, s.rows, open, k);
      assert SameRow(s.rows, s'.rows, k);
    }
  }

  lemma OrderedCall(pl: Plan, s: Pass, e: Event, key: Option<Key>)
    requires ValidPlan(pl) && PlacesKnown(pl) && OwnFiles(pl.start) && InTurn(pl, s, e, key)
    requires Ordered(pl, s, Open(pl, s))
    ensures Ordered(pl, Apply(s, e), Open(pl, Apply(s, e)))
  {
    assert e.f.sourceId in Open(pl, s);
    CallEffect(pl, s, e, key);
    hide *;
    var s', id, open := Apply(s, e), e.f.sourceId, Open(pl, s);
    if Open(pl, s') == open - {id} && Next(pl, open, id, key) && Effect(pl, s, s', id) {
      OrderedEffect(pl, s, s', open, id, key);
    } else {
      OrderedSame(pl, s, s', open);
    }
  }

  lemma OrderedSame(pl: Plan, s: Pass, s': Pass, open: set<SourceId>)
    requires ValidPlan(pl) && open <= pl.items.Keys && Ordered(pl, s, open) && s'.rows == s.rows && s'.drive == s.drive
    ensures Ordered(pl, s', open)
  {
    hide RowOk, SettledFirst;
  }

  lemma {:induction false} OrderedAlong(pl: Plan, events: seq<Event>, key: Option<Key>)
    requires ValidPlan(pl) && PlacesKnown(pl) && OwnFiles(pl.start)
    requires Orderly(pl, pl.start, events, key)
    ensures var s := After(pl.start, events); Ordered(pl, s, Open(pl, s))
  {
    hide Ordered, Open, InTurn, Apply, PlacesKnown, OwnFiles;
    if events == [] {
      OrderedStarts(pl);
    } else {
      var init, e := events[..|events| - 1], events[|events| - 1];
      assert events == init + [e];
      OrderlySnoc(pl, pl.start, init, e, key);
      AfterStep(pl.start, init, e);
      OrderedAlong(pl, init, key);
      OrderedCall(pl, After(pl.start, init), e, key);
    }
  }

  // ----- contents: kept if no two items clash ----------------------------------------------

  /** The large upload `x` finds its path free, if `b` is not there yet, as it is in some listing. */
  ghost predicate LandsFirst(pl: Plan, x: SourceId, b: SourceId)
    requires ValidPlan(pl) && x in pl.items && Uploads(pl, x) && b in pl.items
  {
    Path(pl, x) !in pl.start.drive.contents && Turn(pl, x) <= Turn(pl, b)
  }

  /** The small upload `b` replaces the file of `x`: one that the row of x names, the other small
      upload of its path, or a large one that has taken the path, which it can only before b. */
  ghost predicate Clash(pl: Plan, b: SourceId, x: SourceId)
    requires ValidPlan(pl)
  {
    && b in pl.items && Uploads(pl, b) && Small(pl, b) && x != b
    && ((KeepsRow(pl, x) && FileOf(pl.start, x, Path(pl, b)))
        || (x in pl.items && Uploads(pl, x) && Path(pl, x) == Path(pl, b)
            && (Small(pl, x) || LandsFirst(pl, x, b))))
  }

  ghost predicate NoClash(pl: Plan)
    requires ValidPlan(pl)
  {
    forall b, x :: !Clash(pl, b, x)
  }

  predicate Writes(pl: Plan, id: SourceId)
    requires ValidPlan(pl)
  {
    id in pl.items && (Uploads(pl, id) || Replaces(pl, id))
  }

  /** The file holds what the item wrote last: in this pass what the source served, else what it was. */
  ghost predicate Holds(pl: Plan, contents: map<DriveItem, File>, open: set<SourceId>, id: SourceId, dest: DriveItem)
    requires ValidPlan(pl)
  {
    && dest in contents && contents[dest].author == id
    && if id !in open && Writes(pl, id) then contents[dest].content == pl.env.fetched[id].content
       else dest in pl.start.drive.contents && contents[dest] == pl.start.drive.contents[dest]
  }

  ghost predicate Held(pl: Plan, s: Pass, open: set<SourceId>)
    requires ValidPlan(pl)
  {
    forall id, dest :: FileOf(s, id, dest) && (id !in open || KeepsRow(pl, id)) ==> Holds(pl, s.drive.contents, open, id, dest)
  }

  /** Every file that a row names after the pass holds what its own item wrote last. */
  ghost predicate ContentsKept(pl: Plan, s: Pass)
    requires ValidPlan(pl)
  {
    forall id, dest :: FileOf(s, id, dest) ==> Holds(pl, s.drive.contents, {}, id, dest)
  }

  lemma UploadOver(pl: Plan, s: Pass, s': Pass, id: SourceId, dest: DriveItem)
    requires ValidPlan(pl) && id in pl.items && Uploads(pl, id) && UploadDone(pl, s, s', id) && Fresh(pl.env.rename)
    requires dest.FileIn? && dest in s.drive.contents && !(Small(pl, id) && dest == Path(pl, id))
    ensures dest in s'.drive.contents && s'.drive.contents[dest] == s.drive.contents[dest]
  {
    hide Home;
  }

  lemma NotAtPath(pl: Plan, open: set<SourceId>, id: SourceId, k: SourceId, dest: DriveItem)
    requires ValidPlan(pl) && NamesApart(pl) && open <= pl.items.Keys && id in open && !Clash(pl, id, k)
    requires Uploads(pl, id) && Small(pl, id) && SettledFirst(pl, open)
    requires k in pl.items && k !in open && Uploads(pl, k) && LandedAt(pl, k, dest)
    ensures dest != Path(pl, id)
  {
    hide Home, Uploads, KeepsRow, Turn, Small, IsRenamed, Fresh;
  }

  lemma NotOverwritten(pl: Plan, s: Pass, s': Pass, open: set<SourceId>, id: SourceId, k: SourceId, dest: DriveItem)
    requires ValidPlan(pl) && NoClash(pl) && NamesApart(pl) && open <= pl.items.Keys && id in open && k != id && Ordered(pl, s, open)
    requires Uploads(pl, id) && UploadDone(pl, s, s', id)
    requires FileOf(s, k, dest) && (k !in open || KeepsRow(pl, k)) && dest in s.drive.contents
    ensures dest in s'.drive.contents && s'.drive.contents[dest] == s.drive.contents[dest]
  {
    hide Home, Uploads, KeepsRow, Turn, UploadDone, Small, IsRenamed;
    assert RowOk(pl, s.rows, open, k) && !Clash(pl, id, k);
    KeepsOutside(pl, k);
    if k in pl.items && k !in open && Uploads(pl, k) {
      if Small(pl, id) { NotAtPath(pl, open, id, k, dest); }
    } else {
      assert FileOf(pl.start, k, dest) && KeepsRow(pl, k);
    }
    UploadOver(pl, s, s', id, dest);
  }

  lemma KeepsOutside(pl: Plan, k: SourceId)
    ensures k !in pl.items ==> KeepsRow(pl, k)
  {
  }

  lemma NotReplaced(pl: Plan, s: Pass, s': Pass, open: set<SourceId>, id: SourceId, k: SourceId, dest: DriveItem)
    requires ValidPlan(pl) && open <= pl.items.Keys && id in open && k != id && Ordered(pl, s, open) && Held(pl, s, open)
    requires Replaces(pl, id) && ReplaceDone(pl, s, s', id)
    requires FileOf(s, k, dest) && Holds(pl, s.drive.contents, open, k, dest)
    ensures dest in s'.drive.contents && s'.drive.contents[dest] == s.drive.contents[dest]
  {
    hide Home, Uploads, Turn;
    assert RowOk(pl, s.rows, open, id) && KeepsRow(pl, id);
    var own := pl.start.rows[id].destId.value;
    assert own.FileIn? ==> FileOf(s, id, own);
    assert own.FileIn? ==> Holds(pl, s.drive.contents, open, id, own);
  }

  lemma OthersHeld(pl: Plan, s: Pass, s': Pass, open: set<SourceId>, id: SourceId, k: SourceId, dest: DriveItem)
    requires ValidPlan(pl) && NoClash(pl) && NamesApart(pl) && open <= pl.items.Keys && id in open && k != id
    requires Ordered(pl, s, open) && Held(pl, s, open) && Effect(pl, s, s', id)
    requires FileOf(s', k, dest) && (k !in open || KeepsRow(pl, k))
    ensures Holds(pl, s'.drive.contents, open - {id}, k, dest)
  {
    hide Home, Uploads, KeepsRow, Replaces, Turn, NoClash, Ordered, UploadDone, ReplaceDone, UploadTarget;
    assert SameRow(s.rows, s'.rows, k);
    assert FileOf(s, k, dest);
    if Uploads(pl, id) { NotOverwritten(pl, s, s', open, id, k, dest); }
    else if Replaces(pl, id) { NotReplaced(pl, s, s', open, id, k, dest); }
  }

  lemma OwnHeld(pl: Plan, s: Pass, s': Pass, open: set<SourceId>, id: SourceId, dest: DriveItem)
    requires ValidPlan(pl) && open <= pl.items.Keys && id in open
    requires Ordered(pl, s, open) && Held(pl, s, open) && Effect(pl, s, s', id)
    requires FileOf(s', id, dest)
    ensures Holds(pl, s'.drive.contents, open - {id}, id, dest)
  {
    hide Home, Uploads, KeepsRow, Replaces, Turn, UploadTarget;
    assert RowOk(pl, s.rows, open, id);
    if !Uploads(pl, id) && !Replaces(pl, id) { assert FileOf(s, id, dest); }
  }

  lemma HeldCall(pl: Plan, s: Pass, e: Event, key: Option<Key>)
    requires ValidPlan(pl) && PlacesKnown(pl) && NoClash(pl) && NamesApart(pl) && InTurn(pl, s, e, key)
    requires Ordered(pl, s, Open(pl, s)) && Held(pl, s, Open(pl, s))
    ensures Held(pl, Apply(s, e), Open(pl, Apply(s, e)))
  {
    CallEffect(pl, s, e, key);
    hide Apply, Open, Uploads, Replaces, KeepsRow, Turn, NoClash, PlacesKnown, Ordered, Effect, Next;
    var s', id, open := Apply(s, e), e.f.sourceId, Open(pl, s);
    if Open(pl, s') == open - {id} && Effect(pl, s, s', id) {
      forall k, dest | FileOf(s', k, dest) && (k !in open - {id} || KeepsRow(pl, k))
        ensures Holds(pl, s'.drive.contents, open - {id}, k, dest)
      {
        if k == id { OwnHeld(pl, s, s', open, id, dest); } else { OthersHeld(pl, s, s', open, id, k, dest); }
      }
    } else {
      HeldSame(pl, s, s', open);
    }
  }

  lemma HeldSame(pl: Plan, s: Pass, s': Pass, open: set<SourceId>)
    requires ValidPlan(pl) && Held(pl, s, open) && s'.rows == s.rows && s'.drive == s.drive
    ensures Held(pl, s', open)
  {
    hide KeepsRow, Holds;
    forall id, dest | FileOf(s', id, dest) ensures FileOf(s, id, dest) {}
  }

  lemma HeldStarts(pl: Plan)
    requires ValidPlan(pl) && OwnFiles(pl.start)
    ensures Held(pl, pl.start, Open(pl, pl.start))
  {
    hide Uploads, Replaces, KeepsRow;
  }

  lemma {:induction false} HeldAlong(pl: Plan, events: seq<Event>, key: Option<Key>)
    requires ValidPlan(pl) && PlacesKnown(pl) && NoClash(pl) && NamesApart(pl) && OwnFiles(pl.start)
    requires Orderly(pl, pl.start, events, key)
    ensures var s := After(pl.start, events); Held(pl, s, Open(pl, s))
  {
    hide Ordered, Open, InTurn, Apply, PlacesKnown, OwnFiles, NamesApart, Held, NoClash;
    if events == [] {
      HeldStarts(pl);
    } else {
      var init, e := events[..|events| - 1], events[|events| - 1];
      assert events == init + [e];
      OrderlySnoc(pl, pl.start, init, e, key);
      AfterStep(pl.start, init, e);
      HeldAlong(pl, init, key);
      OrderedAlong(pl, init, key);
      HeldCall(pl, After(pl.start, init), e, key);
    }
  }

  lemma PassOrdered(pl: Plan, batch: seq<SourceFile>)
    requires ValidPlan(pl) && PlacesKnown(pl) && OwnFiles(pl.start) && Lists(pl, batch)
    ensures Ordered(pl, Migrate(pl.env, pl.start, batch).0, {})
  {
    hide *;
    var events := PassTurns(pl, batch, None);
    OrderedAlong(pl, events, None);
    LedgerOpen(pl, Migrate(pl.env, pl.start, batch).0, {});
  }

  /** No pass without clashes loses the content of a file, whatever the listing order. */
  lemma KeptWithoutClash(pl: Plan, batch: seq<SourceFile>)
    requires ValidPlan(pl) && PlacesKnown(pl) && OwnFiles(pl.start) && Lists(pl, batch)
    requires NoClash(pl) && NamesApart(pl)
    ensures ContentsKept(pl, Migrate(pl.env, pl.start, batch).0)
    ensures OwnFiles(Migrate(pl.env, pl.start, batch).0)
  {
    var s := Migrate(pl.env, pl.start, batch).0;
    hide *;
    var events := PassTurns(pl, batch, None);
    HeldAlong(pl, events, None);
    LedgerOpen(pl, s, {});
    HeldAtEnd(pl, s);
  }

  lemma HeldAtEnd(pl: Plan, s: Pass)
    requires ValidPlan(pl) && Held(pl, s, {})
    ensures ContentsKept(pl, s) && OwnFiles(s)
  {
    hide KeepsRow, Writes, FileOf;
  }

  // ----- a clash loses a content in some listing -------------------------------------------

  lemma OneFileTwoRows(pl: Plan, s: Pass, x: SourceId, y: SourceId, dest: DriveItem)
    requires ValidPlan(pl) && FileOf(s, x, dest) && FileOf(s, y, dest) && x != y
    ensures !ContentsKept(pl, s)
  {
    hide Writes;
  }

  /** A small upload ends at its path, and a row that the pass keeps names the file it named. */
  lemma EndsAtPath(pl: Plan, s: Pass, id: SourceId)
    requires ValidPlan(pl) && Ordered(pl, s, {}) && id in pl.items && Uploads(pl, id) && Small(pl, id)
    ensures FileOf(s, id, Path(pl, id))
  {
    hide Home, Uploads, Turn, Small;
    assert RowOk(pl, s.rows, {}, id);
  }

  lemma EndsWhereItWas(pl: Plan, s: Pass, id: SourceId, dest: DriveItem)
    requires ValidPlan(pl) && Ordered(pl, s, {}) && KeepsRow(pl, id) && FileOf(pl.start, id, dest)
    ensures FileOf(s, id, dest)
  {
    hide Home, Turn;
    assert RowOk(pl, s.rows, {}, id);
  }

  lemma AnyListing(pl: Plan) returns (batch: seq<SourceFile>)
    requires ValidPlan(pl)
    ensures Lists(pl, batch)
  {
    batch := ListRest(pl, pl.items.Keys);
  }

  /** Whatever is at the path of the small upload `b` was put there by an item of the pass whose row
      still names it; and b finds it there. */
  ghost predicate PathTaken(pl: Plan, s: Pass, open: set<SourceId>, b: SourceId, x: SourceId)
    requires ValidPlan(pl) && b in pl.items && Uploads(pl, b)
  {
    var path := Path(pl, b);
    && !FolderHolds(s.drive, path.parent, path.name)
    && (x !in open ==> path in s.drive.contents)
    && (path in s.drive.contents ==>
          var y := s.drive.contents[path].author; y in pl.items && y !in open && FileOf(s, y, path))
    && (b !in open ==> Shared(pl, s, open, b))
  }

  ghost predicate Shared(pl: Plan, s: Pass, open: set<SourceId>, b: SourceId)
    requires ValidPlan(pl) && b in pl.items && Uploads(pl, b)
  {
    exists y <- pl.items :: y != b && y !in open && FileOf(s, y, Path(pl, b))
  }

  /** The listing lets the large upload `x` take the path of `b` first. */
  ghost predicate Takes(pl: Plan, b: SourceId, x: SourceId)
    requires ValidPlan(pl)
  {
    && b in pl.items && Uploads(pl, b) && x in pl.items && Uploads(pl, x) && x != b
    && Path(pl, x) == Path(pl, b) && LandsFirst(pl, x, b) && NoFolderAt(pl, Path(pl, b))
  }

  lemma SharedStays(pl: Plan, s: Pass, s': Pass, open: set<SourceId>, b: SourceId, id: SourceId)
    requires ValidPlan(pl) && b in pl.items && Uploads(pl, b) && Shared(pl, s, open, b)
    requires id in open && SameOutside(s.rows, s'.rows, {id})
    ensures Shared(pl, s', open - {id}, b)
  {
    hide Uploads, Home;
    var y :| y in pl.items && y != b && y !in open && FileOf(s, y, Path(pl, b));
    assert SameRow(s.rows, s'.rows, y);
    assert FileOf(s', y, Path(pl, b));
  }

  /** What the call leaves at the path: its own file, or what was there. */
  lemma AtPath(pl: Plan, s: Pass, s': Pass, open: set<SourceId>, id: SourceId, path: DriveItem)
    requires ValidPlan(pl) && open <= pl.items.Keys && id in open && Effect(pl, s, s', id) && OwnFiles(pl.start)
    requires path.FileIn? && path !in pl.start.drive.contents
    ensures path in s.drive.contents ==> path in s'.drive.contents
    ensures path in s'.drive.contents ==>
              || (s'.drive.contents[path].author == id && FileOf(s', id, path))
              || (path in s.drive.contents && s'.drive.contents[path] == s.drive.contents[path])
    ensures Uploads(pl, id) && Path(pl, id) == path && !FolderHolds(s.drive, path.parent, path.name) ==> path in s'.drive.contents
  {
    hide Home, Uploads, KeepsRow;
    if !Uploads(pl, id) && Replaces(pl, id) {
      var own := pl.start.rows[id].destId.value;
      assert own.FileIn? ==> FileOf(pl.start, id, own);
    }
  }

  lemma StillNoFolder(pl: Plan, s: Pass, s': Pass, id: SourceId, path: DriveItem)
    requires ValidPlan(pl) && id in pl.items && FoldersMade(pl, s, s', id)
    requires path.FileIn? && NoFolderAt(pl, path) && !FolderHolds(s.drive, path.parent, path.name)
    ensures !FolderHolds(s'.drive, path.parent, path.name)
  {
    hide Sure, Home;
  }

  lemma TakesFirst(pl: Plan, b: SourceId, x: SourceId)
    requires ValidPlan(pl) && Takes(pl, b, x)
    ensures Earlier(pl, FirstKey(pl, x), x, b)
  {
    if Above(pl, x, b) { AboveRank(pl, x, b); }
    ComesFirst(pl, x, b);
  }

  lemma TakenEffect(pl: Plan, s: Pass, s': Pass, open: set<SourceId>, id: SourceId, b: SourceId, x: SourceId)
    requires ValidPlan(pl) && open <= pl.items.Keys && id in open && Effect(pl, s, s', id) && OwnFiles(pl.start)
    requires Takes(pl, b, x) && PathTaken(pl, s, open, b, x) && Next(pl, open, id, Some(FirstKey(pl, x)))
    ensures PathTaken(pl, s', open - {id}, b, x)
  {
    var path := Path(pl, b);
    AtPath(pl, s, s', open, id, path);
    StillNoFolder(pl, s, s', id, path);
    if Shared(pl, s, open, b) { SharedStays(pl, s, s', open, b, id); }
    if id == b && x in open { TakesFirst(pl, b, x); }
    hide Home, Uploads, Replaces, UploadDone, ReplaceDone, NothingWritten, Turn, OwnFiles, Path, FoldersMade, NoFolderAt, FolderHolds;
    if path in s.drive.contents {
      var y := s.drive.contents[path].author;
      assert SameRow(s.rows, s'.rows, y);
      assert FileOf(s', y, path);
    }
  }

  lemma TakenCall(pl: Plan, s: Pass, e: Event, b: SourceId, x: SourceId)
    requires ValidPlan(pl) && PlacesKnown(pl) && OwnFiles(pl.start) && Takes(pl, b, x) && InTurn(pl, s, e, Some(FirstKey(pl, x)))
    requires PathTaken(pl, s, Open(pl, s), b, x)
    ensures PathTaken(pl, Apply(s, e), Open(pl, Apply(s, e)), b, x)
  {
    CallEffect(pl, s, e, Some(FirstKey(pl, x)));
    hide Apply, Uploads, Turn, Home, PlacesKnown, Effect, Next, OwnFiles, Path;
    var s', id, open := Apply(s, e), e.f.sourceId, Open(pl, s);
    if Open(pl, s') == open - {id} && Next(pl, open, id, Some(FirstKey(pl, x))) && Effect(pl, s, s', id) {
      TakenEffect(pl, s, s', open, id, b, x);
    }
  }

  lemma TakenStarts(pl: Plan, b: SourceId, x: SourceId)
    requires ValidPlan(pl) && Takes(pl, b, x)
    ensures PathTaken(pl, pl.start, Open(pl, pl.start), b, x)
  {
    hide Uploads, Turn, Home, Path;
  }

  lemma {:induction false} TakenAlong(pl: Plan, events: seq<Event>, b: SourceId, x: SourceId)
    requires ValidPlan(pl) && PlacesKnown(pl) && OwnFiles(pl.start) && Takes(pl, b, x)
    requires Orderly(pl, pl.start, events, Some(FirstKey(pl, x)))
    ensures var s := After(pl.start, events); PathTaken(pl, s, Open(pl, s), b, x)
  {
    hide Open, InTurn, Apply, PlacesKnown, OwnFiles, PathTaken;
    if events == [] {
      TakenStarts(pl, b, x);
    } else {
      var init, e := events[..|events| - 1], events[|events| - 1];
      assert events == init + [e];
      OrderlySnoc(pl, pl.start, init, e, Some(FirstKey(pl, x)));
      AfterStep(pl.start, init, e);
      TakenAlong(pl, init, b, x);
      TakenCall(pl, After(pl.start, init), e, b, x);
    }
  }

  lemma LargeTakenOver(pl: Plan, b: SourceId, x: SourceId) returns (batch: seq<SourceFile>)
    requires ValidPlan(pl) && PlacesKnown(pl) && OwnFiles(pl.start)
    requires Takes(pl, b, x) && Small(pl, b)
    ensures Lists(pl, batch) && !ContentsKept(pl, Migrate(pl.env, pl.start, batch).0)
  {
    var events;
    batch, events := FirstListing(pl, x);
    hide Sorted, PlacesKnown, OwnFiles, Orderly, Ledger, After, Migrate, Home, Turn, Open, ContentsKept, Ordered, Lists, FirstKey, Path, Small, ValidPlan;
    var s := Migrate(pl.env, pl.start, batch).0;
    TakenAlong(pl, events, b, x);
    LedgerOpen(pl, s, {});
    PassOrdered(pl, batch);
    EndsAtPath(pl, s, b);
    assert Shared(pl, s, {}, b);
    var y :| y in pl.items && y != b && y !in {} && FileOf(s, y, Path(pl, b));
    OneFileTwoRows(pl, s, b, y, Path(pl, b));
  }

  lemma TakesPath(pl: Plan, b: SourceId, x: SourceId)
    requires ValidPlan(pl) && NamesApart(pl) && Clash(pl, b, x)
    requires !(KeepsRow(pl, x) && FileOf(pl.start, x, Path(pl, b))) && !Small(pl, x)
    ensures Takes(pl, b, x)
  {
    hide KeepsRow, Uploads, Small, Path, Turn, IsRenamed, Fresh;
  }

  lemma ClashLoses(pl: Plan, b: SourceId, x: SourceId) returns (batch: seq<SourceFile>)
    requires ValidPlan(pl) && PlacesKnown(pl) && OwnFiles(pl.start) && NamesApart(pl) && Clash(pl, b, x)
    ensures Lists(pl, batch) && !ContentsKept(pl, Migrate(pl.env, pl.start, batch).0)
  {
    hide PlacesKnown, OwnFiles, NamesApart, Migrate, Home, Turn, ContentsKept, Ordered, Lists, Path, Small, FileOf, KeepsRow, Uploads, ValidPlan;
    if KeepsRow(pl, x) && FileOf(pl.start, x, Path(pl, b)) {
      batch := AnyListing(pl);
      var s := Migrate(pl.env, pl.start, batch).0;
      PassOrdered(pl, batch);
      EndsAtPath(pl, s, b);
      EndsWhereItWas(pl, s, x, Path(pl, b));
      OneFileTwoRows(pl, s, b, x, Path(pl, b));
    } else if Small(pl, x) {
      batch := AnyListing(pl);
      var s := Migrate(pl.env, pl.start, batch).0;
      PassOrdered(pl, batch);
      EndsAtPath(pl, s, b);
      EndsAtPath(pl, s, x);
      OneFileTwoRows(pl, s, b, x, Path(pl, b));
    } else {
      TakesPath(pl, b, x);
      batch := LargeTakenOver(pl, b, x);
    }
  }

  /** Main result. Over an acyclic batch whose places are known, from any store and drive in which every
      file is its own item's, with renames that give free names and none that a small upload has: each
      file that a row names after the pass holds what its item wrote last, in every listing order, if
      and only if no two items clash. */
  lemma KeptIffNoClash(pl: Plan)
    requires ValidPlan(pl) && PlacesKnown(pl) && OwnFiles(pl.start) && NamesApart(pl)
    ensures (forall batch | Lists(pl, batch) :: ContentsKept(pl, Migrate(pl.env, pl.start, batch).0)) <==> NoClash(pl)
  {
    hide ValidPlan, PlacesKnown, OwnFiles, NamesApart, Lists, ContentsKept, Migrate, Clash;
    if NoClash(pl) {
      forall batch | Lists(pl, batch) ensures ContentsKept(pl, Migrate(pl.env, pl.start, batch).0) {
        KeptWithoutClash(pl, batch);
      }
    } else {
      var b, x :| Clash(pl, b, x);
      var batch := ClashLoses(pl, b, x);
    }
  }
}
