/** When a files pass on the drive does not depend on the listing order, exactly: no folder moves over its
    children, and where a file and a folder want one name, the turns of the pass decide which has it. */
module FilesDrive {
  import opened Wrappers
  import opened State
  import opened FilesPass
  import opened FilesAccounting
  import opened FilesPlacement
  import opened FilesOrder
  import opened FilesRuns
  import opened FilesTurns
  import opened FilesContents
  import opened FilesNames

  /** The plan in which the calls that raise are known. */
  function KnownPlan(pl: Plan, raises: set<SourceId>): Plan {
    pl.(env := pl.env.(raises := raises, names := Known))
  }

  /** An acyclic batch on a drive that decides which names are held. */
  ghost predicate DrivePlan(pl: Plan) {
    pl.env.names.OnDrive? && ValidPlan(KnownPlan(pl, {})) && pl.start.met == {}
  }

  lemma KnownIsValid(pl: Plan, raises: set<SourceId>)
    requires DrivePlan(pl)
    ensures ValidPlan(KnownPlan(pl, raises)) && SameButNames(pl.env, KnownPlan(pl, raises).env)
  {
    var empty, known := KnownPlan(pl, {}), KnownPlan(pl, raises);
    forall id <- pl.items ensures BelowParent(known, id) { assert BelowParent(empty, id); }
  }

  lemma SameListings(pl: Plan, raises: set<SourceId>, batch: seq<SourceFile>)
    ensures Lists(pl, batch) <==> Lists(KnownPlan(pl, raises), batch)
  {
  }

  /** The item is created or uploaded under a name. */
  predicate Tries(pl: Plan, id: SourceId)
    requires id in pl.items
  {
    var f := pl.items[id];
    f.isFolder || (!UpToDate(pl.env, pl.start.rows, f) && !f.skip && Existing(pl.env, pl.start.rows, f).None?
                   && f.sourceId in pl.env.fetched)
  }

  function NameOf(pl: Plan, id: SourceId): string
    requires id in pl.items && Tries(pl, id)
  {
    var f := pl.items[id];
    if f.isFolder then f.name else pl.env.fetched[f.sourceId].finalName
  }

  // ----- what the drive holds, before the pass and by turn ---------------------------------

  ghost predicate Makes(pl: Plan, id: SourceId, folder: DriveItem)
    requires ValidPlan(pl)
  {
    id in pl.items && Created(pl, id) == Some(folder)
  }

  ghost predicate Puts(pl: Plan, id: SourceId, path: DriveItem)
    requires ValidPlan(pl)
  {
    id in pl.items && Uploads(pl, id) && Path(pl, id) == path
  }

  ghost predicate FolderEver(pl: Plan, folder: DriveItem)
    requires ValidPlan(pl)
  {
    folder in pl.start.drive.folders || exists p :: Makes(pl, p, folder)
  }

  ghost predicate FolderBefore(pl: Plan, folder: DriveItem, id: SourceId)
    requires ValidPlan(pl) && id in pl.items
  {
    folder in pl.start.drive.folders || exists p :: Makes(pl, p, folder) && Turn(pl, p) < Turn(pl, id)
  }

  ghost predicate FileBefore(pl: Plan, path: DriveItem, id: SourceId)
    requires ValidPlan(pl) && id in pl.items
  {
    path in pl.start.drive.contents || exists x :: Puts(pl, x, path) && Turn(pl, x) < Turn(pl, id)
  }

  /** A folder where the pass may find the parent of the item. */
  ghost predicate Stands(pl: Plan, id: SourceId, folder: DriveItem)
    requires ValidPlan(pl) && id in pl.items
  {
    && Home(pl, id).At?
    && (folder == Home(pl, id).folder
        || (Recreated(pl, {}, id) && Grounded(pl, pl.items[id].parentId.value)
            && folder == Created(pl, pl.items[id].parentId.value).value))
  }

  /** Before the turn of the item, one of the other kind has its name there. */
  ghost predicate NameHeld(pl: Plan, id: SourceId, folder: DriveItem)
    requires ValidPlan(pl) && id in pl.items && Tries(pl, id)
  {
    var name := NameOf(pl, id);
    if pl.items[id].isFolder then FileBefore(pl, FileIn(folder, name), id) && !FolderEver(pl, FolderIn(folder, name))
    else FolderBefore(pl, FolderIn(folder, name), id)
  }

  /** The item gets its name there; a large upload may be renamed, if a folder is surely there first. */
  ghost predicate NameFree(pl: Plan, id: SourceId, folder: DriveItem)
    requires ValidPlan(pl) && id in pl.items && Tries(pl, id)
  {
    var name := NameOf(pl, id);
    if pl.items[id].isFolder then FileIn(folder, name) !in pl.start.drive.contents
    else !FolderEver(pl, FolderIn(folder, name))
         || (!Refusable(pl.env, pl.items[id]) && FolderBefore(pl, FolderIn(folder, name), id))
  }

  /** The calls that raise, foreseen from what the pass finds when it begins: those that raise anyway, and
      those whose item finds its name held, wherever it may stand. */
  ghost predicate Foreseen(pl: Plan, raises: set<SourceId>)
    requires DrivePlan(pl)
  {
    KnownIsValid(pl, raises);
    var known := KnownPlan(pl, raises);
    && pl.env.raises <= raises <= pl.env.raises + pl.items.Keys
    && (forall id <- pl.items :: id in raises - pl.env.raises ==> Refused(known, id))
    && (forall id <- pl.items :: id !in raises && Tries(known, id) && Home(known, id).At? ==>
          NameFree(known, id, Home(known, id).folder))
  }

  ghost predicate Refused(pl: Plan, id: SourceId)
    requires ValidPlan(pl) && id in pl.items
  {
    && Tries(pl, id) && Refusable(pl.env, pl.items[id]) && Home(pl, id).At?
    && forall folder :: Stands(pl, id, folder) ==> NameHeld(pl, id, folder)
  }

  /** No rename gives a large file the name of a folder of the batch. */
  ghost predicate RenamesSpareFolders(pl: Plan) {
    forall x <- pl.items, p <- pl.items ::
      pl.items[p].isFolder && x in pl.env.fetched && !IsSmall(pl.env.fetched[x]) ==> !RenamedTo(pl.env, x, pl.items[p].name)
  }

  // ----- what a pass whose failing calls are known leaves on the drive ---------------------

  /** The call meets an item of the other kind in the folder. */
  ghost predicate MeetsAt(pl: Plan, drive: Drive, id: SourceId, folder: DriveItem)
    requires ValidPlan(pl) && id in pl.items
  {
    && Tries(pl, id) && Home(pl, id).At?
    && if pl.items[id].isFolder then FileHolds(drive, folder, NameOf(pl, id)) else FolderHolds(drive, folder, NameOf(pl, id))
  }

  lemma MeetsStanding(pl: Plan, s: Pass, f: SourceFile, defer: bool, open: set<SourceId>)
    requires ValidPlan(pl) && Steady(pl) && f.sourceId in open && open <= pl.items.Keys && pl.items[f.sourceId] == f
    requires SameRow(pl.start.rows, s.rows, f.sourceId) && Agrees(pl, ParentOf(s, f, defer), f.sourceId)
    requires StandsAt(pl, open, f.sourceId, ParentOf(s, f, defer)) && !Process(pl.env, s, f, defer).1.Defer?
    ensures Meets(pl.env, s, f, ParentOf(s, f, defer)) <==> MeetsAt(pl, s.drive, f.sourceId, Standing(pl, open, f.sourceId))
  {
    hide Home, ParentOf, Steady, Standing, Grounded, Recreated, Placeable, Sure;
  }

  lemma CallMeets(pl: Plan, s: Pass, e: Event, key: Option<Key>)
    requires ValidPlan(pl) && Steady(pl) && InTurn(pl, s, e, key)
    ensures var s', id, open := Apply(s, e), e.f.sourceId, Open(pl, s);
            if Process(e.env, s, e.f, e.defer).1.Defer? then s'.met == s.met && s'.drive == s.drive && Open(pl, s') == open
            else && Open(pl, s') == open - {id}
                 && s'.met == if MeetsAt(pl, s.drive, id, Standing(pl, open, id)) then s.met + {id} else s.met
  {
    assert Open(pl, s) <= pl.items.Keys;
    hide Attempt, Steady, Next, Agrees, StandsAt, ParentOf, Meets, MeetsAt, Standing, Open, Process;
    OpenAfter(pl, s, e.f, e.defer);
    MetCall(e.env, s, e.f, e.defer);
    DeferKeepsDrive(e.env, s, e.f, e.defer);
    if !Process(e.env, s, e.f, e.defer).1.Defer? { MeetsStanding(pl, s, e.f, e.defer, Open(pl, s)); }
  }

  lemma DeferKeepsDrive(env: Env, s: Pass, f: SourceFile, defer: bool)
    ensures Process(env, s, f, defer).1.Defer? ==> Process(env, s, f, defer).0.drive == s.drive
  {
    hide ParentOf;
  }

  /** Every folder on the drive was there, or was created for a settled item; and these are there. */
  ghost predicate FoldersAre(pl: Plan, drive: Drive, open: set<SourceId>)
    requires ValidPlan(pl)
  {
    && pl.start.drive.folders <= drive.folders
    && (forall p, d :: Makes(pl, p, d) && p !in open ==> d in drive.folders)
    && (forall d <- drive.folders :: d in pl.start.drive.folders || exists p :: p !in open && Makes(pl, p, d))
  }

  ghost predicate Renames(pl: Plan, id: SourceId, path: DriveItem)
    requires ValidPlan(pl)
  {
    id in pl.items && Uploads(pl, id) && !Small(pl, id) && IsRenamed(pl, id, path)
  }

  /** Every file on the drive was there, or was put there by a settled item, renamed or not. */
  ghost predicate FilesAre(pl: Plan, drive: Drive, open: set<SourceId>)
    requires ValidPlan(pl)
  {
    && pl.start.drive.contents.Keys <= drive.contents.Keys
    && (forall d <- drive.contents :: d.FileIn? ==>
          d in pl.start.drive.contents || exists x :: x !in open && (Puts(pl, x, d) || Renames(pl, x, d)))
  }

  /** The path of a settled upload is a file now, or it met a folder there. */
  ghost predicate UploadsAre(pl: Plan, s: Pass, open: set<SourceId>)
    requires ValidPlan(pl)
  {
    forall x, d :: Puts(pl, x, d) && x !in open ==>
      if x in s.met then FolderIn(d.parent, d.name) in s.drive.folders else d in s.drive.contents
  }

  ghost predicate MetAre(pl: Plan, s: Pass, open: set<SourceId>)
    requires ValidPlan(pl)
  {
    forall id <- s.met :: id in pl.items && id !in open && Tries(pl, id) && Home(pl, id).At?
  }

  ghost predicate DriveIs(pl: Plan, s: Pass, open: set<SourceId>)
    requires ValidPlan(pl) && open <= pl.items.Keys
  {
    FoldersAre(pl, s.drive, open) && FilesAre(pl, s.drive, open) && UploadsAre(pl, s, open) && MetAre(pl, s, open)
    && SettledFirst(pl, open)
  }

  lemma FoldersStep(pl: Plan, s: Pass, s': Pass, open: set<SourceId>, id: SourceId)
    requires ValidPlan(pl) && Steady(pl) && id in open && id in pl.items
    requires FoldersAre(pl, s.drive, open) && FoldersMade(pl, s, s', id)
    ensures FoldersAre(pl, s'.drive, open - {id})
  {
    hide Created, Steady;
    forall p, d | Makes(pl, p, d) && p !in open - {id} ensures d in s'.drive.folders {
      if p != id { assert Makes(pl, p, d) && p !in open; }
    }
    forall d <- s'.drive.folders ensures d in pl.start.drive.folders || exists p :: p !in open - {id} && Makes(pl, p, d) {
      if d !in s.drive.folders {
        assert Makes(pl, id, d);
      } else if d !in pl.start.drive.folders {
        var p :| p !in open && Makes(pl, p, d);
        assert p !in open - {id};
      }
    }
  }

  lemma PutLands(pl: Plan, s: Pass, s': Pass, id: SourceId, d: DriveItem)
    requires ValidPlan(pl) && id in pl.items && Uploads(pl, id) && UploadDone(pl, s, s', id)
    requires d in s'.drive.contents && d !in s.drive.contents
    ensures Puts(pl, id, d) || Renames(pl, id, d)
  {
    hide Home, Uploads;
  }

  lemma FilesStep(pl: Plan, s: Pass, s': Pass, open: set<SourceId>, id: SourceId)
    requires ValidPlan(pl) && RowsExist(pl.start) && id in open && id in pl.items
    requires FilesAre(pl, s.drive, open) && Effect(pl, s, s', id)
    ensures FilesAre(pl, s'.drive, open - {id})
  {
    hide Uploads, Replaces, UploadTarget, Home, FoldersMade, KeepsRow, Puts, Renames;
    assert s.drive.contents.Keys <= s'.drive.contents.Keys;
    forall d <- s'.drive.contents | d.FileIn?
      ensures d in pl.start.drive.contents || exists x :: x !in open - {id} && (Puts(pl, x, d) || Renames(pl, x, d))
    {
      if d !in s.drive.contents && Uploads(pl, id) {
        PutLands(pl, s, s', id, d);
      } else if d !in s.drive.contents {
        ReplacedWasThere(pl, s, s', id, d);
      } else if d !in pl.start.drive.contents {
        var x :| x !in open && (Puts(pl, x, d) || Renames(pl, x, d));
        assert x !in open - {id};
      }
    }
  }

  lemma ReplacedWasThere(pl: Plan, s: Pass, s': Pass, id: SourceId, d: DriveItem)
    requires ValidPlan(pl) && RowsExist(pl.start) && id in pl.items && !Uploads(pl, id) && Effect(pl, s, s', id)
    requires d.FileIn? && d in s'.drive.contents && d !in s.drive.contents
    ensures d in pl.start.drive.contents
  {
    hide Uploads, Home, FoldersMade, KeepsRow;
    assert Replaces(pl, id) && d == pl.start.rows[id].destId.value;
    assert FileOf(pl.start, id, d);
  }

  lemma UploadStays(pl: Plan, s: Pass, s': Pass, id: SourceId, d: DriveItem)
    requires ValidPlan(pl) && id in pl.items && Puts(pl, id, d) && UploadDone(pl, s, s', id)
    ensures d in s'.drive.contents || FolderHolds(s.drive, d.parent, d.name)
  {
    hide Home, Uploads;
  }

  lemma UploadsStep(pl: Plan, s: Pass, s': Pass, open: set<SourceId>, id: SourceId)
    requires ValidPlan(pl) && Steady(pl) && id in open && id in pl.items && open <= pl.items.Keys
    requires UploadsAre(pl, s, open) && Effect(pl, s, s', id) && id !in s.met
    requires s'.met == if MeetsAt(pl, s.drive, id, Standing(pl, open, id)) then s.met + {id} else s.met
    requires Uploads(pl, id) ==> Standing(pl, open, id) == Home(pl, id).folder
    ensures UploadsAre(pl, s', open - {id})
  {
    forall x, d | Puts(pl, x, d) && x !in open - {id}
      ensures if x in s'.met then FolderIn(d.parent, d.name) in s'.drive.folders else d in s'.drive.contents
    {
      hide Uploads, Replaces, UploadTarget, Home, KeepsRow, UploadDone, Standing, Steady, Created;
      if x == id {
        UploadStays(pl, s, s', id, d);
        MeetsUpload(pl, s, id, Standing(pl, open, id), d);
      } else {
        assert x !in open;
        ContentsGrow(pl, s, s', id);
      }
    }
  }

  lemma ContentsGrow(pl: Plan, s: Pass, s': Pass, id: SourceId)
    requires ValidPlan(pl) && id in pl.items && Effect(pl, s, s', id)
    ensures s.drive.contents.Keys <= s'.drive.contents.Keys && s.drive.folders <= s'.drive.folders
  {
    hide Uploads, Replaces, UploadTarget, Home, KeepsRow;
  }

  lemma MeetsUpload(pl: Plan, s: Pass, id: SourceId, folder: DriveItem, d: DriveItem)
    requires ValidPlan(pl) && id in pl.items && Puts(pl, id, d) && folder == Home(pl, id).folder
    ensures MeetsAt(pl, s.drive, id, folder) <==> FolderHolds(s.drive, d.parent, d.name)
  {
    hide Home;
  }

  /** What is to be written stands where the reference says. */
  lemma StandsHome(pl: Plan, s: Pass, e: Event, key: Option<Key>)
    requires ValidPlan(pl) && Steady(pl) && InTurn(pl, s, e, key)
    requires Placeable(pl, e.f.sourceId) && Home(pl, e.f.sourceId).At? && !Process(e.env, s, e.f, e.defer).1.Defer?
    ensures Standing(pl, Open(pl, s), e.f.sourceId) == Home(pl, e.f.sourceId).folder
  {
    hide Home, ParentOf, Steady, Standing, Grounded, Recreated, Next;
    assert Sure(pl, e.f.sourceId);
  }

  ghost predicate GoodDrive(pl: Plan) {
    RowsExist(pl.start) && OneName(pl.start.drive) && Fresh(pl.env.rename) && RenamesSpareFolders(pl)
  }

  lemma MetStep(pl: Plan, s: Pass, s': Pass, open: set<SourceId>, id: SourceId)
    requires ValidPlan(pl) && MetAre(pl, s, open) && id in open && id in pl.items
    requires s'.met == if MeetsAt(pl, s.drive, id, Standing(pl, open, id)) then s.met + {id} else s.met
    ensures MetAre(pl, s', open - {id}) && id !in s.met
  {
    hide Home, Standing, Tries;
  }

  lemma DriveEffect(pl: Plan, s: Pass, s': Pass, open: set<SourceId>, id: SourceId, key: Option<Key>)
    requires ValidPlan(pl) && Steady(pl) && RowsExist(pl.start) && open <= pl.items.Keys && id in open
    requires DriveIs(pl, s, open) && Effect(pl, s, s', id) && Next(pl, open, id, key)
    requires s'.met == if MeetsAt(pl, s.drive, id, Standing(pl, open, id)) then s.met + {id} else s.met
    requires Uploads(pl, id) ==> Standing(pl, open, id) == Home(pl, id).folder
    ensures DriveIs(pl, s', open - {id})
  {
    assert FoldersMade(pl, s, s', id);
    hide Home, Uploads, Steady, RowsExist, FoldersAre, FilesAre, UploadsAre, MetAre, Effect, FoldersMade, Next, Standing, MeetsAt, SettledFirst;
    FoldersStep(pl, s, s', open, id);
    FilesStep(pl, s, s', open, id);
    MetStep(pl, s, s', open, id);
    UploadsStep(pl, s, s', open, id);
    FirstSettled(pl, open, id, key);
  }

  lemma PlacesAreKnown(pl: Plan)
    requires ValidPlan(pl) && Steady(pl)
    ensures PlacesKnown(pl)
  {
    hide Steady, Uploads;
  }

  lemma DriveCall(pl: Plan, s: Pass, e: Event, key: Option<Key>)
    requires ValidPlan(pl) && Steady(pl) && RowsExist(pl.start) && InTurn(pl, s, e, key)
    requires DriveIs(pl, s, Open(pl, s))
    ensures DriveIs(pl, Apply(s, e), Open(pl, Apply(s, e)))
  {
    PlacesAreKnown(pl);
    CallEffect(pl, s, e, key);
    CallMeets(pl, s, e, key);
    var s', id, open := Apply(s, e), e.f.sourceId, Open(pl, s);
    assert id in open;
    if Process(e.env, s, e.f, e.defer).1.Defer? {
      DriveSame(pl, s, s', open);
    } else {
      if Uploads(pl, id) { StandsHome(pl, s, e, key); }
      hide *;
      DriveEffect(pl, s, s', open, id, key);
    }
  }

  lemma DriveSame(pl: Plan, s: Pass, s': Pass, open: set<SourceId>)
    requires ValidPlan(pl) && open <= pl.items.Keys && DriveIs(pl, s, open) && s'.drive == s.drive && s'.met == s.met
    ensures DriveIs(pl, s', open)
  {
    hide FoldersAre, FilesAre, SettledFirst, Puts;
  }

  lemma DriveStarts(pl: Plan)
    requires ValidPlan(pl) && pl.start.met == {}
    ensures DriveIs(pl, pl.start, Open(pl, pl.start)) && Open(pl, pl.start) == pl.items.Keys
  {
    hide Makes, Puts, Renames, Turn;
    assert forall p, d :: Makes(pl, p, d) ==> p in pl.items by { hide *; forall p, d | Makes(pl, p, d) ensures p in pl.items { MakesItem(pl, p, d); } }
    assert forall x, d :: Puts(pl, x, d) ==> x in pl.items by { hide *; forall x, d | Puts(pl, x, d) ensures x in pl.items { PutsItem(pl, x, d); } }
  }

  lemma MakesItem(pl: Plan, p: SourceId, d: DriveItem)
    requires ValidPlan(pl) && Makes(pl, p, d)
    ensures p in pl.items
  {
  }

  lemma PutsItem(pl: Plan, x: SourceId, d: DriveItem)
    requires ValidPlan(pl) && Puts(pl, x, d)
    ensures x in pl.items
  {
  }

  lemma {:induction false} DriveAlong(pl: Plan, events: seq<Event>, key: Option<Key>)
    requires ValidPlan(pl) && Steady(pl) && RowsExist(pl.start) && pl.start.met == {}
    requires Orderly(pl, pl.start, events, key)
    ensures var s := After(pl.start, events); DriveIs(pl, s, Open(pl, s))
  {
    hide DriveIs, Open, InTurn, Apply, Steady, RowsExist;
    if events == [] {
      DriveStarts(pl);
    } else {
      var init, e := events[..|events| - 1], events[|events| - 1];
      assert events == init + [e];
      OrderlySnoc(pl, pl.start, init, e, key);
      AfterStep(pl.start, init, e);
      DriveAlong(pl, init, key);
      DriveCall(pl, After(pl.start, init), e, key);
    }
  }

  // ----- what is foreseen happens ----------------------------------------------------------

  lemma HeldMeets(pl: Plan, s: Pass, open: set<SourceId>, id: SourceId, folder: DriveItem, key: Option<Key>)
    requires ValidPlan(pl) && open <= pl.items.Keys && id in open && DriveIs(pl, s, open) && Next(pl, open, id, key)
    requires Tries(pl, id) && Home(pl, id).At? && NameHeld(pl, id, folder)
    ensures MeetsAt(pl, s.drive, id, folder)
  {
    hide Home, Turn, Tries, NameOf, Uploads, FilesAre, MetAre, SettledFirst;
    var name := NameOf(pl, id);
    if pl.items[id].isFolder {
      var path := FileIn(folder, name);
      HeldFolder(pl, s, open, FolderIn(folder, name));
      if path !in pl.start.drive.contents {
        var x :| Puts(pl, x, path) && Turn(pl, x) < Turn(pl, id);
        assert x !in open;
      }
      assert FilesAre(pl, s.drive, open);
      StartFilesStay(pl, s, open);
    } else if FolderIn(folder, name) !in pl.start.drive.folders {
      var p :| Makes(pl, p, FolderIn(folder, name)) && Turn(pl, p) < Turn(pl, id);
      assert p !in open;
    }
  }

  lemma StartFilesStay(pl: Plan, s: Pass, open: set<SourceId>)
    requires ValidPlan(pl) && FilesAre(pl, s.drive, open)
    ensures pl.start.drive.contents.Keys <= s.drive.contents.Keys
  {
  }

  lemma HeldFolder(pl: Plan, s: Pass, open: set<SourceId>, folder: DriveItem)
    requires ValidPlan(pl) && FoldersAre(pl, s.drive, open) && !FolderEver(pl, folder)
    ensures folder !in s.drive.folders
  {
    hide Makes;
  }

  /** A file that is there when its folder's turn comes, while no folder is, cannot be. */
  lemma FreeFolder(pl: Plan, s: Pass, open: set<SourceId>, id: SourceId, x: SourceId)
    requires ValidPlan(pl) && open <= pl.items.Keys && DriveIs(pl, s, open)
    requires id in pl.items && Created(pl, id).Some? && x !in open && Puts(pl, x, FileIn(Home(pl, id).folder, pl.items[id].name))
    requires NameFree(pl, x, Home(pl, x).folder)
    ensures Created(pl, id).value in s.drive.folders
  {
    hide Turn, Home, FilesAre, UploadsAre, MetAre;
    var folder := Created(pl, id).value;
    assert Makes(pl, id, folder) && folder == FolderIn(Home(pl, x).folder, NameOf(pl, x));
    assert FolderBefore(pl, folder, x);
    if folder !in pl.start.drive.folders {
      var p :| Makes(pl, p, folder) && Turn(pl, p) < Turn(pl, x);
      assert p !in open;
    }
  }

  lemma FreeMeetsNot(pl: Plan, s: Pass, open: set<SourceId>, id: SourceId)
    requires ValidPlan(pl) && RenamesSpareFolders(pl) && open <= pl.items.Keys && id in open && DriveIs(pl, s, open)
    requires Tries(pl, id) && Home(pl, id).At? && Refusable(pl.env, pl.items[id]) && id !in pl.env.raises
    requires forall x <- pl.items :: x !in pl.env.raises && Tries(pl, x) && Home(pl, x).At? ==> NameFree(pl, x, Home(pl, x).folder)
    ensures !MeetsAt(pl, s.drive, id, Home(pl, id).folder)
  {
    hide Turn, Home, FoldersAre, UploadsAre, MetAre, SettledFirst, FolderEver, FolderBefore, UpToDate;
    var folder, name := Home(pl, id).folder, NameOf(pl, id);
    if pl.items[id].isFolder {
      var path := FileIn(folder, name);
      if path in s.drive.contents {
        var x :| x !in open && (Puts(pl, x, path) || Renames(pl, x, path));
        assert !Renames(pl, x, path);
        FreeFolder(pl, s, open, id, x);
      }
    } else {
      HeldFolder(pl, s, open, FolderIn(folder, name));
    }
  }

  lemma SettledUnder(pl: Plan, s: Pass, e: Event, key: Option<Key>)
    requires ValidPlan(pl) && Steady(pl) && InTurn(pl, s, e, key) && !Process(e.env, s, e.f, e.defer).1.Defer?
    requires Tries(pl, e.f.sourceId) && Home(pl, e.f.sourceId).At?
    ensures Stands(pl, e.f.sourceId, Standing(pl, Open(pl, s), e.f.sourceId))
  {
    hide Home, ParentOf, Steady, Grounded, Created, Placeable, Sure, Next;
  }

  /** What the call meets is what was foreseen. */
  lemma CallTold(pl: Plan, raises: set<SourceId>, s: Pass, e: Event)
    requires DrivePlan(pl) && RenamesSpareFolders(pl) && Foreseen(pl, raises)
    requires ValidPlan(KnownPlan(pl, raises)) && Steady(KnownPlan(pl, raises)) && InTurn(KnownPlan(pl, raises), s, e, None)
    requires var known := KnownPlan(pl, raises); DriveIs(known, s, Open(known, s))
    requires !Process(e.env, s, e.f, e.defer).1.Defer?
    ensures var known, id := KnownPlan(pl, raises), e.f.sourceId;
            Told(pl.env, known.env, e.f, MeetsAt(known, s.drive, id, Standing(known, Open(known, s), id)))
  {
    var known, id := KnownPlan(pl, raises), e.f.sourceId;
    var open := Open(known, s);
    var folder := Standing(known, open, id);
    hide Steady, Home, Standing, DriveIs, NameHeld, NameFree, Next, StandsAt, Agrees, Stands, Process, FileHolds, FolderHolds, ValidPlan;
    if id !in pl.env.raises && Tries(known, id) && Home(known, id).At? && Refusable(pl.env, e.f) {
      if id in raises {
        SettledUnder(known, s, e, None);
        assert Refused(known, id);
        HeldMeets(known, s, open, id, folder, None);
      } else {
        StandsHome(known, s, e, None);
        FreeMeetsNot(known, s, open, id);
      }
    }
  }

  ghost predicate ToldNow(pl: Plan, known: Plan, met: set<SourceId>, open: set<SourceId>) {
    forall id <- pl.items :: id !in open ==> Told(pl.env, known.env, pl.items[id], id in met)
  }

  lemma ToldStep(pl: Plan, raises: set<SourceId>, s: Pass, e: Event)
    requires DrivePlan(pl) && RenamesSpareFolders(pl) && Foreseen(pl, raises)
    requires ValidPlan(KnownPlan(pl, raises)) && Steady(KnownPlan(pl, raises)) && InTurn(KnownPlan(pl, raises), s, e, None)
    requires var known := KnownPlan(pl, raises); DriveIs(known, s, Open(known, s))
    requires var known := KnownPlan(pl, raises); ToldNow(pl, known, s.met, Open(known, s))
    ensures var known, s' := KnownPlan(pl, raises), Apply(s, e); ToldNow(pl, known, s'.met, Open(known, s'))
  {
    var known := KnownPlan(pl, raises);
    CallMeets(known, s, e, None);
    assert pl.items[e.f.sourceId] == e.f;
    if !Process(e.env, s, e.f, e.defer).1.Defer? { CallTold(pl, raises, s, e); }
    hide Steady, Home, Standing, DriveIs, Foreseen, Apply, InTurn, Told, MeetsAt, Process, Open, ValidPlan, DrivePlan;
  }

  lemma {:induction false} ToldAlong(pl: Plan, raises: set<SourceId>, events: seq<Event>)
    requires DrivePlan(pl) && GoodDrive(pl) && Foreseen(pl, raises)
    requires ValidPlan(KnownPlan(pl, raises)) && Steady(KnownPlan(pl, raises))
    requires Orderly(KnownPlan(pl, raises), pl.start, events, None)
    ensures var known, s := KnownPlan(pl, raises), After(pl.start, events); ToldNow(pl, known, s.met, Open(known, s))
  {
    hide Steady, Foreseen, InTurn, Apply, Told, Open, ValidPlan, DriveIs;
    var known := KnownPlan(pl, raises);
    if events == [] {
      DriveStarts(known);
    } else {
      var init, e := events[..|events| - 1], events[|events| - 1];
      assert events == init + [e];
      OrderlySnoc(known, pl.start, init, e, None);
      AfterStep(pl.start, init, e);
      ToldAlong(pl, raises, init);
      DriveAlong(known, init, None);
      ToldStep(pl, raises, After(pl.start, init), e);
    }
  }

  lemma ToldBatch(pl: Plan, known: Plan, met: set<SourceId>, batch: seq<SourceFile>)
    requires ToldNow(pl, known, met, {}) && Drawn(pl, batch)
    ensures ToldAll(pl.env, known.env, batch, {}, met)
  {
    hide Told;
  }

  /** A pass on the drive is the pass in which the foreseen calls raise, whatever the listing. */
  lemma ForeseenPass(pl: Plan, raises: set<SourceId>, batch: seq<SourceFile>)
    requires DrivePlan(pl) && GoodDrive(pl) && Foreseen(pl, raises) && Lists(pl, batch)
    requires ValidPlan(KnownPlan(pl, raises)) && Steady(KnownPlan(pl, raises))
    ensures Migrate(KnownPlan(pl, raises).env, pl.start, batch) == Migrate(pl.env, pl.start, batch)
  {
    var known := KnownPlan(pl, raises);
    assert known.start == pl.start && pl.start.met == {} && Drawn(pl, batch) && Distinct(batch);
    KnownIsValid(pl, raises);
    SameListings(pl, raises, batch);
    hide *;
    var events := PassTurns(known, batch, None);
    var s := Migrate(known.env, pl.start, batch).0;
    ToldAlong(pl, raises, events);
    LedgerOpen(known, s, {});
    ToldBatch(pl, known, s.met, batch);
    ToldPass(pl.env, known.env, known.env, pl.start, batch);
  }
}
