/** Order independence on the drive, exactly: what the order decides is whether the same calls raise, and
    then whether a folder moves over its children. */
module FilesDriveOrder {
  import opened Wrappers
  import opened State
  import opened FilesPass
  import opened FilesAccounting
  import opened FilesPlacement
  import opened FilesOrder
  import opened FilesFailures
  import opened FilesRuns
  import opened FilesTurns
  import opened FilesContents
  import opened FilesNames
  import opened FilesDrive

  // ----- if the order does not matter, the same calls raise --------------------------------

  lemma MetCallAt(pl: Plan, s: Pass, e: Event, key: Option<Key>, id: SourceId)
    requires ValidPlan(pl) && InTurn(pl, s, e, key) && id in Apply(s, e).met && id !in s.met
    ensures id in pl.items && Tries(pl, id) && Home(pl, id).At?
  {
    hide Home, ParentOf, Steady, Next, StandsAt, Sure, Placeable, Attempt;
  }

  /** Only items that belong somewhere, and are created or uploaded, meet others. */
  lemma {:induction false} MetAlong(pl: Plan, events: seq<Event>, key: Option<Key>, id: SourceId)
    requires ValidPlan(pl) && pl.start.met == {} && Orderly(pl, pl.start, events, key)
    requires id in After(pl.start, events).met
    ensures id in pl.items && Tries(pl, id) && Home(pl, id).At?
  {
    hide InTurn, Apply, ValidPlan, Home, Tries;
    if events != [] {
      var init, e := events[..|events| - 1], events[|events| - 1];
      assert events == init + [e];
      OrderlySnoc(pl, pl.start, init, e, key);
      AfterStep(pl.start, init, e);
      if id in After(pl.start, init).met {
        MetAlong(pl, init, key, id);
      } else {
        MetCallAt(pl, After(pl.start, init), e, key, id);
      }
    }
  }

  /** The calls that raise in the pass over this listing. */
  ghost function RaisesIn(pl: Plan, batch: seq<SourceFile>): set<SourceId> {
    RaisesOf(pl, Migrate(pl.env, pl.start, batch).0)
  }

  ghost function RaisesOf(pl: Plan, s: Pass): set<SourceId> {
    pl.env.raises + set id | id in pl.items && id in s.met && Refusable(pl.env, pl.items[id])
  }

  /** Every pass on the drive is one in which the calls that raise are known. */
  lemma PassIsKnown(pl: Plan, batch: seq<SourceFile>)
    requires DrivePlan(pl) && Lists(pl, batch)
    ensures var known := KnownPlan(pl, RaisesIn(pl, batch));
            && ValidPlan(known) && Lists(known, batch)
            && Migrate(known.env, known.start, batch) == Migrate(pl.env, pl.start, batch)
  {
    var known := KnownPlan(pl, RaisesIn(pl, batch));
    KnownIsValid(pl, RaisesIn(pl, batch));
    SameListings(pl, RaisesIn(pl, batch), batch);
    var met := Migrate(pl.env, pl.start, batch).0.met;
    assert ToldAll(pl.env, known.env, batch, {}, met) by { hide Migrate, Refusable; }
    assert pl.start.met == {} && Distinct(batch);
    hide *;
    ToldPass(pl.env, known.env, pl.env, pl.start, batch);
  }

  /** Of the item that met another in the pass over this listing. */
  lemma MetIn(pl: Plan, batch: seq<SourceFile>, id: SourceId)
    requires DrivePlan(pl) && Lists(pl, batch) && id in Migrate(pl.env, pl.start, batch).0.met
    ensures ValidPlan(KnownPlan(pl, RaisesIn(pl, batch)))
    ensures var known := KnownPlan(pl, RaisesIn(pl, batch)); id in pl.items && Tries(known, id) && Home(known, id).At?
  {
    assert pl.start.met == {};
    hide *;
    PassIsKnown(pl, batch);
    var known := KnownPlan(pl, RaisesIn(pl, batch));
    var events := PassTurns(known, batch, None);
    MetAlong(known, events, None, id);
  }

  /** The item finds no place only under a parent whose creation raised. */
  lemma LostUnder(pl: Plan, id: SourceId)
    requires ValidPlan(pl) && id in pl.items
    ensures Home(pl, id) == Lost <==>
              var p := pl.items[id].parentId;
              p.Some? && p.value !in pl.start.folderMap && p.value in pl.items && FailedFolder(pl, p.value)
  {
  }

  /** Two passes that fail the same folders and leave the same rows met the same items. */
  lemma SameMet(a: Plan, b: Plan, s: Pass, s': Pass, id: SourceId)
    requires ValidPlan(a) && ValidPlan(b) && a.items == b.items && a.start == b.start
    requires b.env == a.env.(raises := b.env.raises) && Settled(a, s) && Settled(b, s')
    requires s.failed == s'.failed && SameResult(a, s.rows, s'.rows, id)
    requires id in a.items && id in a.env.raises && Tries(a, id) && Home(a, id).At?
    ensures id in b.env.raises
  {
    hide Home, MapsTo, NewUploads, MayBeNamed, Sure, SameItem;
    assert FailedFolder(a, id) <==> id in s.failed;
    assert id in s'.failed <==> FailedFolder(b, id);
    assert Fulfilled(a, s.rows, id) && Fulfilled(b, s'.rows, id);
    LostUnder(a, id);
    LostUnder(b, id);
    if Home(b, id) == Lost {
      var p := a.items[id].parentId.value;
      assert p in s'.failed <==> FailedFolder(b, p);
      assert p in s.failed <==> FailedFolder(a, p);
    }
  }

  lemma MoreRaises(pl: Plan, a: seq<SourceFile>, b: seq<SourceFile>, id: SourceId)
    requires DrivePlan(pl) && Lists(pl, a) && Lists(pl, b)
    requires SamePlacement(pl, Migrate(pl.env, pl.start, a).0, Migrate(pl.env, pl.start, b).0)
    requires id in RaisesIn(pl, a)
    ensures id in RaisesIn(pl, b)
  {
    hide Migrate, ValidPlan, Lists, SameResult, Settled, Tries, Refusable;
    if id !in pl.env.raises {
      PassIsKnown(pl, a);
      PassIsKnown(pl, b);
      MetIn(pl, a, id);
      var ka, kb := KnownPlan(pl, RaisesIn(pl, a)), KnownPlan(pl, RaisesIn(pl, b));
      Fates(ka, a);
      Fates(kb, b);
      var s, s' := Migrate(pl.env, pl.start, a).0, Migrate(pl.env, pl.start, b).0;
      SameFetched(pl, ka, s.rows, s'.rows, id);
      SameMet(ka, kb, s, s', id);
    }
  }

  lemma SameFetched(pl: Plan, known: Plan, rows: Rows, rows': Rows, id: SourceId)
    requires SameResult(pl, rows, rows', id) && known.env.fetched == pl.env.fetched && known.env.rename == pl.env.rename
    ensures SameResult(known, rows, rows', id)
  {
  }

  lemma SameRaises(pl: Plan, a: seq<SourceFile>, b: seq<SourceFile>)
    requires DrivePlan(pl) && OrderIndependent(pl) && Lists(pl, a) && Lists(pl, b)
    ensures RaisesIn(pl, a) == RaisesIn(pl, b)
  {
    hide Migrate, Lists, SamePlacement, RaisesIn, DrivePlan;
    forall id: SourceId ensures id in RaisesIn(pl, a) <==> id in RaisesIn(pl, b) {
      if id in RaisesIn(pl, a) { MoreRaises(pl, a, b, id); }
      if id in RaisesIn(pl, b) { MoreRaises(pl, b, a, id); }
    }
  }

  /** The same calls raise in every listing. */
  ghost predicate AlwaysRaises(pl: Plan, raises: set<SourceId>) {
    forall batch | Lists(pl, batch) :: RaisesIn(pl, batch) == raises
  }

  lemma KnownInAll(pl: Plan, raises: set<SourceId>, batch: seq<SourceFile>)
    requires DrivePlan(pl) && AlwaysRaises(pl, raises) && Lists(pl, batch)
    ensures var known := KnownPlan(pl, raises);
            ValidPlan(known) && Lists(known, batch) && Migrate(known.env, known.start, batch) == Migrate(pl.env, pl.start, batch)
  {
    assert RaisesIn(pl, batch) == raises;
    hide *;
    PassIsKnown(pl, batch);
  }

  lemma KnownSame(pl: Plan, raises: set<SourceId>, s: Pass, s': Pass)
    ensures SamePlacement(KnownPlan(pl, raises), s, s') <==> SamePlacement(pl, s, s')
  {
    var known := KnownPlan(pl, raises);
    hide MayBeNamed;
    forall id: SourceId ensures SameResult(known, s.rows, s'.rows, id) <==> SameResult(pl, s.rows, s'.rows, id) {
      NamesOfKnown(pl, raises, id);
    }
  }

  lemma NamesOfKnown(pl: Plan, raises: set<SourceId>, id: SourceId)
    ensures id in pl.env.fetched ==>
              forall name: string :: MayBeNamed(KnownPlan(pl, raises).env, id, name) <==> MayBeNamed(pl.env, id, name)
  {
  }

  lemma KnownIndependent(pl: Plan, raises: set<SourceId>)
    requires DrivePlan(pl) && AlwaysRaises(pl, raises)
    ensures OrderIndependent(KnownPlan(pl, raises)) <==> OrderIndependent(pl)
  {
    var known := KnownPlan(pl, raises);
    hide Migrate, Lists, SamePlacement, AlwaysRaises, DrivePlan, ValidPlan;
    forall a, b | Lists(pl, a) && Lists(pl, b)
      ensures Lists(known, a) && Lists(known, b)
      ensures SamePlacement(known, Migrate(known.env, known.start, a).0, Migrate(known.env, known.start, b).0)
              <==> SamePlacement(pl, Migrate(pl.env, pl.start, a).0, Migrate(pl.env, pl.start, b).0)
    {
      KnownInAll(pl, raises, a);
      KnownInAll(pl, raises, b);
      KnownSame(pl, raises, Migrate(pl.env, pl.start, a).0, Migrate(pl.env, pl.start, b).0);
    }
    forall a | Lists(known, a) ensures Lists(pl, a) { SameListings(pl, raises, a); }
  }

  // ----- a listing in which the item comes first -------------------------------------------

  /** What is settled is not later than what is open. */
  ghost predicate KeyFirst(pl: Plan, open: set<SourceId>, key: Key)
    requires ValidPlan(pl) && open <= pl.items.Keys
  {
    forall x <- pl.items, y <- open :: x !in open ==> !Earlier(pl, key, y, x)
  }

  /** By this key the item finds its parent in the folder, and nothing in its way that must not be there. */
  ghost predicate Leads(pl: Plan, key: Key, id: SourceId, folder: DriveItem)
    requires ValidPlan(pl) && id in pl.items && Tries(pl, id)
  {
    && (forall open: set<SourceId> :: open <= pl.items.Keys && id in open && KeyFirst(pl, open, key) && Next(pl, open, id, Some(key)) ==>
          Standing(pl, open, id) == folder)
    && (forall y <- pl.items ::
          (Puts(pl, y, FileIn(folder, NameOf(pl, id))) || Makes(pl, y, FolderIn(folder, NameOf(pl, id))))
          && y != id && Turn(pl, id) <= Turn(pl, y) ==>
            Earlier(pl, key, id, y))
  }

  /** If the item met another, the name was held before its turn. */
  ghost predicate MetBefore(pl: Plan, s: Pass, open: set<SourceId>, id: SourceId, folder: DriveItem)
    requires ValidPlan(pl) && id in pl.items && Tries(pl, id)
  {
    id !in open && id in s.met ==>
      var path := FileIn(folder, NameOf(pl, id));
      if pl.items[id].isFolder then FileBefore(pl, path, id) && path in s.drive.contents
      else FolderBefore(pl, FolderIn(folder, NameOf(pl, id)), id)
  }

  lemma KeyStep(pl: Plan, open: set<SourceId>, id: SourceId, key: Key)
    requires ValidPlan(pl) && open <= pl.items.Keys && id in open && KeyFirst(pl, open, key) && Next(pl, open, id, Some(key))
    ensures KeyFirst(pl, open - {id}, key)
  {
    hide Earlier, Turn;
  }

  lemma FileFound(pl: Plan, drive: Drive, open: set<SourceId>, id: SourceId, folder: DriveItem, key: Key)
    requires ValidPlan(pl) && RenamesSpareFolders(pl) && open <= pl.items.Keys && id in open && FilesAre(pl, drive, open)
    requires KeyFirst(pl, open, key) && Tries(pl, id) && Leads(pl, key, id, folder) && pl.items[id].isFolder
    requires FileIn(folder, NameOf(pl, id)) in drive.contents
    ensures FileBefore(pl, FileIn(folder, NameOf(pl, id)), id)
  {
    hide Turn, Home, Standing, Next, UpToDate;
    var path := FileIn(folder, NameOf(pl, id));
    if path !in pl.start.drive.contents {
      var x :| x !in open && (Puts(pl, x, path) || Renames(pl, x, path));
      assert !Renames(pl, x, path);
      assert Puts(pl, x, path) && !Earlier(pl, key, id, x);
    }
  }

  lemma FolderFound(pl: Plan, drive: Drive, open: set<SourceId>, id: SourceId, folder: DriveItem, key: Key)
    requires ValidPlan(pl) && open <= pl.items.Keys && id in open && FoldersAre(pl, drive, open)
    requires KeyFirst(pl, open, key) && Tries(pl, id) && Leads(pl, key, id, folder) && !pl.items[id].isFolder
    requires FolderIn(folder, NameOf(pl, id)) in drive.folders
    ensures FolderBefore(pl, FolderIn(folder, NameOf(pl, id)), id)
  {
    hide Turn, Home, Standing, Next, Uploads;
    var path := FolderIn(folder, NameOf(pl, id));
    if path !in pl.start.drive.folders {
      var p :| p !in open && Makes(pl, p, path);
      assert p in pl.items && p != id && !Earlier(pl, key, id, p);
    }
  }

  ghost predicate FirstIs(pl: Plan, s: Pass, open: set<SourceId>, key: Key, id: SourceId, folder: DriveItem)
    requires ValidPlan(pl) && open <= pl.items.Keys && id in pl.items && Tries(pl, id)
  {
    KeyFirst(pl, open, key) && MetBefore(pl, s, open, id, folder)
  }

  lemma FirstEffect(pl: Plan, s: Pass, s': Pass, open: set<SourceId>, f: SourceId, key: Key, id: SourceId, folder: DriveItem)
    requires ValidPlan(pl) && RenamesSpareFolders(pl) && open <= pl.items.Keys && f in open && DriveIs(pl, s, open)
    requires id in pl.items && Tries(pl, id) && Leads(pl, key, id, folder) && FirstIs(pl, s, open, key, id, folder)
    requires Next(pl, open, f, Some(key)) && s.drive.contents.Keys <= s'.drive.contents.Keys
    requires s'.met == if MeetsAt(pl, s.drive, f, Standing(pl, open, f)) then s.met + {f} else s.met
    ensures FirstIs(pl, s', open - {f}, key, id, folder)
  {
    hide Turn, Home, Standing, Next, Uploads, KeyFirst, FoldersAre, FilesAre, UploadsAre, SettledFirst, FileBefore, FolderBefore, Tries, RenamesSpareFolders;
    KeyStep(pl, open, f, key);
    if f == id && MeetsAt(pl, s.drive, id, Standing(pl, open, id)) {
      assert Standing(pl, open, id) == folder;
      if pl.items[id].isFolder { FileFound(pl, s.drive, open, id, folder, key); }
      else { FolderFound(pl, s.drive, open, id, folder, key); }
    }
  }

  lemma FirstCall(pl: Plan, s: Pass, e: Event, key: Key, id: SourceId, folder: DriveItem)
    requires ValidPlan(pl) && Steady(pl) && RowsExist(pl.start) && RenamesSpareFolders(pl) && InTurn(pl, s, e, Some(key))
    requires DriveIs(pl, s, Open(pl, s))
    requires id in pl.items && Tries(pl, id) && Leads(pl, key, id, folder) && FirstIs(pl, s, Open(pl, s), key, id, folder)
    ensures FirstIs(pl, Apply(s, e), Open(pl, Apply(s, e)), key, id, folder)
  {
    PlacesAreKnown(pl);
    CallEffect(pl, s, e, Some(key));
    CallMeets(pl, s, e, Some(key));
    var s', f, open := Apply(s, e), e.f.sourceId, Open(pl, s);
    assert f in open;
    if !Process(e.env, s, e.f, e.defer).1.Defer? {
      ContentsGrow(pl, s, s', f);
      hide *;
      FirstEffect(pl, s, s', open, f, key, id, folder);
    } else {
      hide FileBefore, FolderBefore, Tries, KeyFirst, Process, Open, Home;
    }
  }

  lemma {:induction false} FirstAlong(pl: Plan, events: seq<Event>, key: Key, id: SourceId, folder: DriveItem)
    requires ValidPlan(pl) && Steady(pl) && RowsExist(pl.start) && RenamesSpareFolders(pl) && pl.start.met == {}
    requires id in pl.items && Tries(pl, id) && Leads(pl, key, id, folder) && Orderly(pl, pl.start, events, Some(key))
    ensures var s := After(pl.start, events); FirstIs(pl, s, Open(pl, s), key, id, folder)
  {
    if events == [] {
      hide Leads, Earlier, MeetsAt, Tries;
      DriveStarts(pl);
    } else {
      hide *;
      var init, e := events[..|events| - 1], events[|events| - 1];
      assert events == init + [e];
      OrderlySnoc(pl, pl.start, init, e, Some(key));
      AfterStep(pl.start, init, e);
      FirstAlong(pl, init, key, id, folder);
      DriveAlong(pl, init, Some(key));
      FirstCall(pl, After(pl.start, init), e, key, id, folder);
    }
  }

  // ----- keys that lead --------------------------------------------------------------------

  function Depth(d: DriveItem): nat {
    if d.Root? then 0 else 1 + Depth(d.parent)
  }

  /** The folders that an item waits for are on its path. */
  lemma {:induction false} AboveDepth(pl: Plan, x: SourceId, y: SourceId)
    requires ValidPlan(pl) && x in pl.items && Above(pl, x, y) && y != x && Home(pl, x).At?
    requires y in pl.items && Created(pl, y).Some?
    ensures Depth(Created(pl, y).value) <= Depth(Home(pl, x).folder)
    decreases pl.rank[x]
  {
    hide Opens, NeedsNoParent;
    assert BelowParent(pl, x);
    var p := pl.items[x].parentId.value;
    OpensWhen(pl, p);
    if y != p { AboveDepth(pl, p, y); }
  }

  lemma LeadsHome(pl: Plan, id: SourceId)
    requires ValidPlan(pl) && id in pl.items && Tries(pl, id) && Home(pl, id).At?
    ensures Leads(pl, FirstKey(pl, id), id, Home(pl, id).folder)
  {
    var key, folder := FirstKey(pl, id), Home(pl, id).folder;
    hide Earlier, FirstKey, Tries, NameOf;
    forall open: set<SourceId> | open <= pl.items.Keys && id in open && KeyFirst(pl, open, key) && Next(pl, open, id, Some(key))
      ensures Standing(pl, open, id) == folder
    {
      if Recreated(pl, open, id) { FirstBeforeParent(pl, id, pl.items[id].parentId.value); }
    }
    forall y <- pl.items
      | (Puts(pl, y, FileIn(folder, NameOf(pl, id))) || Makes(pl, y, FolderIn(folder, NameOf(pl, id))))
        && y != id && Turn(pl, id) <= Turn(pl, y)
      ensures Earlier(pl, key, id, y)
    {
      NotAbove(pl, id, y, folder, NameOf(pl, id));
      ComesFirst(pl, id, y);
    }
  }

  lemma FirstBeforeParent(pl: Plan, id: SourceId, p: SourceId)
    requires ValidPlan(pl) && id in pl.items && pl.items[id].parentId == Some(p) && p in pl.items && p in pl.start.folderMap
    ensures Earlier(pl, FirstKey(pl, id), id, p)
  {
    assert BelowParent(pl, id);
    ComesFirst(pl, id, p);
  }

  lemma NotAbove(pl: Plan, x: SourceId, y: SourceId, folder: DriveItem, name: string)
    requires ValidPlan(pl) && x in pl.items && y in pl.items && y != x && Home(pl, x).At?
    requires Puts(pl, y, FileIn(folder, name)) || Makes(pl, y, FolderIn(folder, name))
    requires Depth(Home(pl, x).folder) <= Depth(folder)
    ensures !Above(pl, x, y)
  {
    hide Home, Above;
    if Above(pl, x, y) {
      AboveRank(pl, x, y);
      if Makes(pl, y, FolderIn(folder, name)) { AboveDepth(pl, x, y); }
    }
  }

  /** First the parent folder, with those it waits for, and then the item. */
  ghost function SecondKey(pl: Plan, p: SourceId, id: SourceId): Key
    requires ValidPlan(pl) && p in pl.items
  {
    (y: SourceId) =>
      if y !in pl.items then 0
      else if Above(pl, p, y) then pl.rank[y]
      else if y == id then pl.rank[p] + 1
      else pl.rank[y] + pl.rank[p] + 2
  }

  ghost predicate KnownParent(pl: Plan, id: SourceId, p: SourceId)
    requires ValidPlan(pl)
  {
    id in pl.items && pl.items[id].parentId == Some(p) && p in pl.items && p in pl.start.folderMap && Grounded(pl, p)
  }

  lemma SecondKeyIsGood(pl: Plan, p: SourceId, id: SourceId)
    requires ValidPlan(pl) && KnownParent(pl, id, p)
    ensures GoodKey(pl, SecondKey(pl, p, id))
  {
    hide Turn, Opens, Above, Grounded, NeedsNoParent;
    var key := SecondKey(pl, p, id);
    forall x <- pl.items, q <- pl.items | Awaits(pl, x, q) && Turn(pl, q) == Turn(pl, x)
      ensures key(q) < key(x)
    {
      SameTurnOpens(pl, x, q);
      if Above(pl, p, x) { AboveStep(pl, p, x, q); }
      if Above(pl, p, q) { AboveRank(pl, p, q); }
    }
  }

  lemma {:induction false} GroundedTurn(pl: Plan, p: SourceId)
    requires ValidPlan(pl) && p in pl.items && Grounded(pl, p)
    ensures Turn(pl, p) == 0
    decreases pl.rank[p]
  {
    hide Created, NeedsNoParent;
    assert BelowParent(pl, p);
    if pl.items[p].parentId.Some? && pl.items[p].parentId.value !in pl.start.folderMap {
      GroundedTurn(pl, pl.items[p].parentId.value);
      OpensWhen(pl, pl.items[p].parentId.value);
    }
  }

  lemma LeadsMoved(pl: Plan, id: SourceId, p: SourceId)
    requires ValidPlan(pl) && KnownParent(pl, id, p) && Tries(pl, id) && Created(pl, p).Some?
    ensures Leads(pl, SecondKey(pl, p, id), id, Created(pl, p).value)
  {
    var key, folder := SecondKey(pl, p, id), Created(pl, p).value;
    GroundedTurn(pl, p);
    assert BelowParent(pl, id) && Turn(pl, id) == 0 && Above(pl, p, p);
    hide Tries, NameOf, Home, Grounded, Above;
    if Above(pl, p, id) { AboveRank(pl, p, id); }
    forall open: set<SourceId> | open <= pl.items.Keys && id in open && KeyFirst(pl, open, key) && Next(pl, open, id, Some(key))
      ensures Standing(pl, open, id) == folder
    {
      hide Turn;
      assert Earlier(pl, key, p, id);
    }
    forall y <- pl.items
      | (Puts(pl, y, FileIn(folder, NameOf(pl, id))) || Makes(pl, y, FolderIn(folder, NameOf(pl, id))))
        && y != id && Turn(pl, id) <= Turn(pl, y)
      ensures Earlier(pl, key, id, y)
    {
      NotOnPath(pl, p, y, NameOf(pl, id));
    }
  }

  lemma NotOnPath(pl: Plan, p: SourceId, y: SourceId, name: string)
    requires ValidPlan(pl) && p in pl.items && y in pl.items && Created(pl, p).Some?
    requires Puts(pl, y, FileIn(Created(pl, p).value, name)) || Makes(pl, y, FolderIn(Created(pl, p).value, name))
    ensures !Above(pl, p, y)
  {
    hide Above;
    if y != p { NotAbove(pl, p, y, Created(pl, p).value, name); }
    assert Depth(Created(pl, p).value) < Depth(FolderIn(Created(pl, p).value, name));
  }

  // ----- what always happens was to be foreseen --------------------------------------------

  lemma EndsWithOneName(pl: Plan, batch: seq<SourceFile>)
    requires pl.env.names.OnDrive? && GoodDrive(pl)
    ensures OneName(Migrate(pl.env, pl.start, batch).0.drive)
  {
    hide Migrate, After, OneName, RowsExist, Fresh, RenamesSpareFolders;
    var events := MigrateIsTrace(pl.env, pl.start, batch);
    NamesStayUnique(pl.start, events);
  }

  /** The end of a pass in which the calls that raise are known. */
  ghost predicate EndIs(pl: Plan, s: Pass, raises: set<SourceId>)
    requires ValidPlan(pl)
  {
    && DriveIs(pl, s, {}) && OneName(s.drive)
    && (forall id <- pl.items :: id !in raises && Refusable(pl.env, pl.items[id]) && id in s.met ==> id in pl.env.raises)
    && (forall id <- pl.items :: id in pl.env.raises && id !in raises ==> id in s.met && Refusable(pl.env, pl.items[id]))
  }

  lemma KeyedEnd(pl: Plan, raises: set<SourceId>, key: Key) returns (s: Pass, events: seq<Event>)
    requires DrivePlan(pl) && GoodDrive(pl) && AlwaysRaises(pl, raises)
    requires ValidPlan(KnownPlan(pl, raises)) && Steady(KnownPlan(pl, raises)) && GoodKey(KnownPlan(pl, raises), key)
    ensures var known := KnownPlan(pl, raises);
            && After(pl.start, events) == s && Orderly(known, pl.start, events, Some(key)) && Open(known, s) == {}
            && EndIs(known, s, pl.env.raises)
  {
    var known := KnownPlan(pl, raises);
    assert pl.start.met == {} && RowsExist(pl.start);
    hide *;
    var batch;
    batch, events := KeyListing(known, key);
    SameListings(pl, raises, batch);
    s := Migrate(known.env, pl.start, batch).0;
    LedgerOpen(known, s, {});
    DriveAlong(known, events, Some(key));
    KnownInAll(pl, raises, batch);
    EndsWithOneName(pl, batch);
    RaisesAre(pl, raises, batch);
    EndTold(pl, raises, s);
  }

  lemma RaisesAre(pl: Plan, raises: set<SourceId>, batch: seq<SourceFile>)
    requires AlwaysRaises(pl, raises) && Lists(pl, batch)
    ensures raises == RaisesOf(pl, Migrate(pl.env, pl.start, batch).0)
  {
    hide Migrate, Lists;
    assert RaisesIn(pl, batch) == raises;
  }

  lemma EndTold(pl: Plan, raises: set<SourceId>, s: Pass)
    requires raises == RaisesOf(pl, s) && ValidPlan(KnownPlan(pl, raises)) && DriveIs(KnownPlan(pl, raises), s, {}) && OneName(s.drive)
    ensures EndIs(KnownPlan(pl, raises), s, pl.env.raises)
  {
    hide DriveIs, OneName, ValidPlan;
  }

  lemma FolderGone(pl: Plan, s: Pass, folder: DriveItem, name: string)
    requires ValidPlan(pl) && DriveIs(pl, s, {}) && OneName(s.drive) && FileIn(folder, name) in s.drive.contents
    ensures !FolderEver(pl, FolderIn(folder, name))
  {
    hide FilesAre, UploadsAre, MetAre, SettledFirst, Makes;
  }

  lemma HeldByKey(pl: Plan, raises: set<SourceId>, id: SourceId, folder: DriveItem, key: Key)
    requires DrivePlan(pl) && GoodDrive(pl) && AlwaysRaises(pl, raises)
    requires ValidPlan(KnownPlan(pl, raises)) && Steady(KnownPlan(pl, raises)) && GoodKey(KnownPlan(pl, raises), key)
    requires id in pl.items && id in raises - pl.env.raises
    requires var known := KnownPlan(pl, raises); Tries(known, id) && Leads(known, key, id, folder)
    ensures NameHeld(KnownPlan(pl, raises), id, folder)
  {
    var known := KnownPlan(pl, raises);
    assert known.start == pl.start && pl.start.met == {} && RowsExist(pl.start) && RenamesSpareFolders(known);
    hide Orderly, Steady, DrivePlan, GoodDrive, AlwaysRaises, GoodKey, Leads, DriveIs, OneName, FileBefore, FolderBefore, FolderEver, After, Open, ValidPlan, Tries, KeyFirst, NameOf;
    var s, events := KeyedEnd(pl, raises, key);
    FirstAlong(known, events, key, id, folder);
    assert id in s.met;
    if pl.items[id].isFolder { FolderGone(known, s, folder, NameOf(known, id)); }
  }

  lemma HeldThere(pl: Plan, raises: set<SourceId>, id: SourceId, folder: DriveItem)
    requires DrivePlan(pl) && GoodDrive(pl) && AlwaysRaises(pl, raises)
    requires ValidPlan(KnownPlan(pl, raises)) && Steady(KnownPlan(pl, raises))
    requires id in pl.items && id in raises - pl.env.raises
    requires var known := KnownPlan(pl, raises); Tries(known, id) && Stands(known, id, folder)
    ensures NameHeld(KnownPlan(pl, raises), id, folder)
  {
    var known := KnownPlan(pl, raises);
    hide Steady, DrivePlan, GoodDrive, AlwaysRaises, GoodKey, Leads, NameHeld, ValidPlan, Tries, Home, Created, Grounded;
    if folder == Home(known, id).folder {
      LeadsHome(known, id);
      FirstKeyIsGood(known, id);
      HeldByKey(pl, raises, id, folder, FirstKey(known, id));
    } else {
      var p := known.items[id].parentId.value;
      LeadsMoved(known, id, p);
      SecondKeyIsGood(known, p, id);
      HeldByKey(pl, raises, id, folder, SecondKey(known, p, id));
    }
  }

  lemma RefusedThere(pl: Plan, raises: set<SourceId>, id: SourceId, batch: seq<SourceFile>)
    requires DrivePlan(pl) && GoodDrive(pl) && AlwaysRaises(pl, raises) && Lists(pl, batch)
    requires ValidPlan(KnownPlan(pl, raises)) && Steady(KnownPlan(pl, raises))
    requires id in pl.items && id in raises - pl.env.raises
    ensures Refused(KnownPlan(pl, raises), id)
  {
    var known := KnownPlan(pl, raises);
    RaisesAre(pl, raises, batch);
    assert RaisesIn(pl, batch) == raises;
    hide Steady, DrivePlan, GoodDrive, AlwaysRaises, NameHeld, ValidPlan, Tries, Home, Stands, Migrate, Lists, RaisesIn;
    MetIn(pl, batch, id);
    forall folder | Stands(known, id, folder) ensures NameHeld(known, id, folder) { HeldThere(pl, raises, id, folder); }
  }

  /** An upload that met no folder has its path; and then no folder ever has. */
  lemma PutWins(pl: Plan, s: Pass, id: SourceId, raises: set<SourceId>)
    requires ValidPlan(pl) && EndIs(pl, s, raises) && id in pl.items && Uploads(pl, id) && id !in s.met
    ensures !FolderEver(pl, FolderIn(Path(pl, id).parent, Path(pl, id).name))
  {
    hide Uploads, Home, FoldersAre, FilesAre, MetAre, SettledFirst, OneName;
    assert Puts(pl, id, Path(pl, id));
    FolderGone(pl, s, Path(pl, id).parent, Path(pl, id).name);
  }

  lemma MadeWins(pl: Plan, s: Pass, id: SourceId, raises: set<SourceId>)
    requires ValidPlan(pl) && EndIs(pl, s, raises) && id in pl.items && Created(pl, id).Some?
    ensures FileIn(Home(pl, id).folder, pl.items[id].name) !in pl.start.drive.contents
  {
    hide Home, UploadsAre, MetAre, SettledFirst, OneName;
    assert Makes(pl, id, Created(pl, id).value);
    if FileIn(Home(pl, id).folder, pl.items[id].name) in pl.start.drive.contents {
      FolderGone(pl, s, Home(pl, id).folder, pl.items[id].name);
    }
  }

  lemma FreeThere(pl: Plan, raises: set<SourceId>, id: SourceId)
    requires DrivePlan(pl) && GoodDrive(pl) && AlwaysRaises(pl, raises)
    requires ValidPlan(KnownPlan(pl, raises)) && Steady(KnownPlan(pl, raises))
    requires id in pl.items && id !in raises && Tries(KnownPlan(pl, raises), id) && Home(KnownPlan(pl, raises), id).At?
    requires pl.env.raises <= raises
    ensures NameFree(KnownPlan(pl, raises), id, Home(KnownPlan(pl, raises), id).folder)
  {
    var known := KnownPlan(pl, raises);
    var folder, key := Home(known, id).folder, FirstKey(known, id);
    LeadsHome(known, id);
    FirstKeyIsGood(known, id);
    assert known.start == pl.start && pl.start.met == {} && RowsExist(pl.start) && RenamesSpareFolders(known);
    hide Orderly, Steady, DrivePlan, GoodDrive, AlwaysRaises, GoodKey, Leads, DriveIs, OneName, FileBefore, FolderBefore, FolderEver, After, Open, ValidPlan, KeyFirst, Home, UpToDate, FirstKey, EndIs;
    var s, events := KeyedEnd(pl, raises, key);
    FirstAlong(known, events, key, id, folder);
    if pl.items[id].isFolder {
      MadeWins(known, s, id, pl.env.raises);
    } else if id !in s.met {
      PutWins(known, s, id, pl.env.raises);
    } else {
      EndMet(known, s, id, pl.env.raises);
    }
  }

  lemma EndMet(pl: Plan, s: Pass, id: SourceId, raises: set<SourceId>)
    requires ValidPlan(pl) && EndIs(pl, s, raises) && id in pl.items && id in s.met && raises <= pl.env.raises
    requires id !in pl.env.raises
    ensures !Refusable(pl.env, pl.items[id])
  {
    hide DriveIs, OneName, Refusable;
  }

  lemma Foretold(pl: Plan, raises: set<SourceId>, batch: seq<SourceFile>)
    requires DrivePlan(pl) && GoodDrive(pl) && AlwaysRaises(pl, raises) && Lists(pl, batch)
    requires ValidPlan(KnownPlan(pl, raises)) && Steady(KnownPlan(pl, raises))
    ensures Foreseen(pl, raises)
  {
    var known := KnownPlan(pl, raises);
    RaisesAre(pl, raises, batch);
    hide Steady, GoodDrive, AlwaysRaises, ValidPlan, Tries, Home, NameFree, Refused, Lists, Refusable;
    forall id <- pl.items | id in raises - pl.env.raises ensures Refused(known, id) {
      RefusedThere(pl, raises, id, batch);
    }
    forall id <- pl.items | id !in raises && Tries(known, id) && Home(known, id).At?
      ensures NameFree(known, id, Home(known, id).folder)
    {
      FreeThere(pl, raises, id);
    }
  }

  /** What the pass finds decides which calls raise, and then where the items go. */
  ghost predicate Decided(pl: Plan, raises: set<SourceId>)
    requires DrivePlan(pl)
  {
    KnownIsValid(pl, raises);
    Foreseen(pl, raises) && Steady(KnownPlan(pl, raises))
  }

  lemma ForeseenAlways(pl: Plan, raises: set<SourceId>)
    requires DrivePlan(pl) && GoodDrive(pl) && HashMeansDone(pl.start.rows) && Decided(pl, raises)
    ensures OrderIndependent(pl)
  {
    KnownIsValid(pl, raises);
    var known := KnownPlan(pl, raises);
    assert Steady(known) && Foreseen(pl, raises) && known.start == pl.start;
    hide Migrate, Lists, SamePlacement, DrivePlan, ValidPlan, Steady, Foreseen, GoodDrive, HashMeansDone;
    forall a, b | Lists(pl, a) && Lists(pl, b)
      ensures SamePlacement(pl, Migrate(pl.env, pl.start, a).0, Migrate(pl.env, pl.start, b).0)
    {
      SameListings(pl, raises, a);
      SameListings(pl, raises, b);
      ForeseenPass(pl, raises, a);
      ForeseenPass(pl, raises, b);
      SteadyIsEnough(known, a, b);
      KnownSame(pl, raises, Migrate(pl.env, pl.start, a).0, Migrate(pl.env, pl.start, b).0);
    }
  }

  lemma AlwaysForeseen(pl: Plan)
    requires DrivePlan(pl) && GoodDrive(pl) && HashMeansDone(pl.start.rows) && OrderIndependent(pl)
    ensures exists raises :: Decided(pl, raises)
  {
    KnownIsValid(pl, {});
    var batch := AnyListing(KnownPlan(pl, {}));
    SameListings(pl, {}, batch);
    var raises := RaisesIn(pl, batch);
    assert AlwaysRaises(pl, raises) by {
      hide *;
      forall b | Lists(pl, b) ensures RaisesIn(pl, b) == raises { SameRaises(pl, b, batch); }
      AlwaysMeans(pl, raises);
    }
    KnownIsValid(pl, raises);
    hide Migrate, Lists, Foreseen, GoodDrive, HashMeansDone, OrderIndependent, AlwaysRaises, RaisesIn, ValidPlan;
    KnownIndependent(pl, raises);
    OrderIndependence(KnownPlan(pl, raises));
    Foretold(pl, raises, batch);
    assert Decided(pl, raises);
  }

  lemma AlwaysMeans(pl: Plan, raises: set<SourceId>)
    requires forall b | Lists(pl, b) :: RaisesIn(pl, b) == raises
    ensures AlwaysRaises(pl, raises)
  {
  }

  /** Main result. On a drive that decides which names are held, an acyclic batch ends the same for every
      listing order if and only if the calls that raise can be foreseen from what the pass finds, and
      with them no folder moves over its children. */
  lemma DriveOrderIndependence(pl: Plan)
    requires DrivePlan(pl) && GoodDrive(pl) && HashMeansDone(pl.start.rows)
    ensures OrderIndependent(pl) <==> exists raises :: Decided(pl, raises)
  {
    hide *;
    if OrderIndependent(pl) {
      AlwaysForeseen(pl);
    } else if raises :| Decided(pl, raises) {
      ForeseenAlways(pl, raises);
    }
  }

  /** Folder F and file X of one name at the root. */
  function TwoOfOneName(content: Bytes, rename: Rename): Plan {
    Plan(
      Env(Full, map["X" := Fetched(content, "n")], {}, rename, OnDrive), EMPTY_PASS,
      map["F" := SourceFile("F", "n", None, true, None, false),
          "X" := SourceFile("X", "n", None, false, None, false)],
      map["F" := 0, "X" := 0])
  }

  lemma TwoHomes(content: Bytes, rename: Rename, raises: set<SourceId>)
    ensures var pl := TwoOfOneName(content, rename);
            var known := KnownPlan(pl, raises);
            && DrivePlan(pl) && ValidPlan(known) && Steady(known)
            && Home(known, "F") == At(Root) && Home(known, "X") == At(Root)
            && Turn(known, "F") == 0 && Turn(known, "X") == 0
  {
  }

  /** No folder moves, and yet the order decides: whichever is listed first has the name. */
  lemma NameDecidesOrder(content: Bytes, rename: Rename)
    requires Fresh(rename)
    ensures var pl := TwoOfOneName(content, rename);
            DrivePlan(pl) && GoodDrive(pl) && ValidPlan(KnownPlan(pl, {})) && Steady(KnownPlan(pl, {})) && !OrderIndependent(pl)
  {
    var pl := TwoOfOneName(content, rename);
    TwoHomes(content, rename, {});
    assert GoodDrive(pl) && HashMeansDone(pl.start.rows);
    hide GoodDrive, OrderIndependent;
    DriveOrderIndependence(pl);
    if raises :| Decided(pl, raises) { NotDecided(content, rename, raises); }
  }

  lemma NotDecided(content: Bytes, rename: Rename, raises: set<SourceId>)
    ensures DrivePlan(TwoOfOneName(content, rename)) && !Decided(TwoOfOneName(content, rename), raises)
  {
    var pl := TwoOfOneName(content, rename);
    TwoHomes(content, rename, raises);
    var known := KnownPlan(pl, raises);
    hide Turn, Home, Steady, ValidPlan;
    assert Stands(known, "F", Root) && Stands(known, "X", Root);
    assert !NameHeld(known, "F", Root) && !NameHeld(known, "X", Root);
    assert "F" !in raises ==> Makes(known, "F", FolderIn(Root, "n"));
    assert "F" !in raises ==> !NameFree(known, "X", Root);
    assert "F" in raises ==> !Refused(known, "F");
    assert "X" in raises ==> !Refused(known, "X");
  }

  // ----- contents on the drive -------------------------------------------------------------

  lemma SmallsAreClear(pl: Plan, raises: set<SourceId>)
    requires DrivePlan(pl) && GoodDrive(pl) && Foreseen(pl, raises)
    requires ValidPlan(KnownPlan(pl, raises)) && Steady(KnownPlan(pl, raises)) && RenamesSpareUploads(KnownPlan(pl, raises))
    ensures NamesApart(KnownPlan(pl, raises)) && PlacesKnown(KnownPlan(pl, raises))
  {
    var known := KnownPlan(pl, raises);
    PlacesAreKnown(known);
    assert Fresh(known.env.rename);
    hide RenamesSpareUploads, PlacesKnown, DrivePlan, GoodDrive, ValidPlan, Home, Turn, FolderBefore, Fresh, Refused, UpToDate;
    forall b <- known.items | Uploads(known, b) && Small(known, b) ensures NoFolderAt(known, Path(known, b)) {
      assert NameFree(known, b, Home(known, b).folder);
      NeverThere(known, Path(known, b));
    }
  }

  lemma NeverThere(pl: Plan, path: DriveItem)
    requires ValidPlan(pl) && Steady(pl) && path.FileIn? && !FolderEver(pl, FolderIn(path.parent, path.name))
    ensures NoFolderAt(pl, path)
  {
    hide Home, Steady;
    forall p <- pl.items | Created(pl, p).Some? && pl.items[p].name == path.name
      ensures Created(pl, p).value.parent != path.parent
    {
      assert !Makes(pl, p, FolderIn(path.parent, path.name));
    }
  }

  /** Main result. On the drive, where a batch does not depend on the order: every file that a row names holds
      after the pass what its own item wrote last, in every listing order, if and only if no two items
      clash. */
  lemma DriveKeptIffNoClash(pl: Plan, raises: set<SourceId>)
    requires DrivePlan(pl) && GoodDrive(pl) && OwnFiles(pl.start) && Decided(pl, raises)
    requires ValidPlan(KnownPlan(pl, raises)) && RenamesSpareUploads(KnownPlan(pl, raises))
    ensures var known := KnownPlan(pl, raises);
            (forall batch | Lists(pl, batch) :: ContentsKept(known, Migrate(pl.env, pl.start, batch).0)) <==> NoClash(known)
  {
    var known := KnownPlan(pl, raises);
    assert Steady(known) && Foreseen(pl, raises) && known.start == pl.start;
    hide Migrate, Lists, ContentsKept, NoClash, DrivePlan, GoodDrive, OwnFiles, Steady, Foreseen, ValidPlan, RenamesSpareUploads, PlacesKnown, NamesApart;
    SmallsAreClear(pl, raises);
    KeptIffNoClash(known);
    forall batch | Lists(pl, batch) || Lists(known, batch)
      ensures Lists(pl, batch) && Lists(known, batch)
      ensures Migrate(known.env, known.start, batch) == Migrate(pl.env, pl.start, batch)
    {
      SameListings(pl, raises, batch);
      ForeseenPass(pl, raises, batch);
    }
  }
}
