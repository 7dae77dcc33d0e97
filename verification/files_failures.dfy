/** Failed folders. The documentation promises that the children of a folder that failed fail too
    instead of falling through to the drive root (TODO.md); the code keeps this for the folders
    whose own creation raised, and breaks it one level further down. */
module FilesFailures {
  import opened Wrappers
  import opened State
  import opened FilesPass
  import opened FilesAccounting
  import opened FilesPlacement
  import opened FilesOrder

  /** The item's parent is a folder of the batch that no earlier pass created. */
  predicate NewParent(pl: Plan, id: SourceId, p: SourceId)
    requires id in pl.items
  {
    pl.items[id].parentId == Some(p) && p in pl.items && pl.items[p].isFolder && p !in pl.start.folderMap
  }

  /** The item ended failed and nothing of it was written. */
  ghost predicate NotWritten(pl: Plan, s: Pass, id: SourceId) {
    && id in s.rows && s.rows[id] == Row(Failed, None, None)
    && Lookup(s.folderMap, id) == Lookup(pl.start.folderMap, id)
    && s.drive.uploads[id] == pl.start.drive.uploads[id]
  }

  /** Under a folder that fails, the place of an item is fixed: the failed folder, or the root. */
  lemma FixedBelow(pl: Plan, id: SourceId, p: SourceId)
    requires ValidPlan(pl) && id in pl.items && NewParent(pl, id, p) && Created(pl, p).None?
    ensures Fixed(pl, id) && Home(pl, id) == (if FailedFolder(pl, p) then Lost else At(Root))
    ensures Home(pl, p) == Lost <==> !FailedFolder(pl, p)
  {
    assert BelowParent(pl, id);
  }

  /** Main result. In every acyclic batch and every listing order, whatever else of the batch moves or
      fails: under a new folder that ended failed, an item that would be written ends failed and
      unwritten if and only if the folder's own creation raised; it is written at the drive root if
      and only if the folder was itself failed for its parent, that is, if the creation of the item's
      grandparent raised. */
  lemma BelowFailedFolder(pl: Plan, batch: seq<SourceFile>, id: SourceId, p: SourceId)
    requires ValidPlan(pl) && Lists(pl, batch)
    requires id in pl.items && NewParent(pl, id, p) && Placeable(pl, id) && Created(pl, p).None?
    ensures var s := Migrate(pl.env, pl.start, batch).0;
            && HasStatus(s.rows, p, Failed)
            && (NotWritten(pl, s, id) <==> FailedFolder(pl, p))
            && (ChildIn(s, id, Root) <==> Home(pl, p) == Lost)
            && (Home(pl, p) == Lost <==> !FailedFolder(pl, p))
  {
    Fates(pl, batch);
    FixedBelow(pl, id, p);
    hide Migrate, Home, Fixed, Steady;
    var s := Migrate(pl.env, pl.start, batch).0;
    assert Fulfilled(pl, s.rows, p) && Fulfilled(pl, s.rows, id);
    assert MapsTo(pl, s.folderMap, {}, id);
    assert s.drive.uploads[id] == pl.start.drive.uploads[id] + NewUploads(pl, {}, id);
  }

  const EMPTY_PASS := Pass(map[], map[], {}, Drive(map[], {}, multiset{}), 0, multiset{}, {})

  /** Folder A with folder B in it and file X in B, where the creation of A raises. */
  function BrokenTree(content: Bytes, rename: Rename): Plan {
    Plan(
      Env(Full, map["X" := Fetched(content, "x")], {"A"}, rename, Known), EMPTY_PASS,
      map["A" := SourceFile("A", "a", None, true, None, false),
          "B" := SourceFile("B", "b", Some("A"), true, None, false),
          "X" := SourceFile("X", "x", Some("B"), false, None, false)],
      map["A" := 0, "B" := 1, "X" := 2])
  }

  lemma BrokenTreeValid(content: Bytes, rename: Rename)
    ensures ValidPlan(BrokenTree(content, rename)) && Steady(BrokenTree(content, rename))
  {
  }

  lemma BrokenTreeHomes(content: Bytes, rename: Rename)
    ensures var pl := BrokenTree(content, rename);
            && ValidPlan(pl) && Steady(pl)
            && Created(pl, "A") == None && Created(pl, "B") == None && Home(pl, "X") == At(Root)
  {
    BrokenTreeValid(content, rename);
    hide Steady, ValidPlan;
    var pl := BrokenTree(content, rename);
    assert Home(pl, "A") == At(Root);
    assert Home(pl, "B") == Lost;
  }

  /** The transitive promise is false: whatever the listing order, A and B end failed and X is
      written at the drive root and recorded as done. */
  lemma GrandchildFallsToRoot(content: Bytes, rename: Rename, batch: seq<SourceFile>)
    requires Lists(BrokenTree(content, rename), batch)
    ensures var pl := BrokenTree(content, rename);
            var s := Migrate(pl.env, pl.start, batch).0;
            && HasStatus(s.rows, "A", Failed) && HasStatus(s.rows, "B", Failed)
            && HasStatus(s.rows, "X", Done) && ChildIn(s, "X", Root)
  {
    hide Migrate, Home, Created, Steady, Lists, Placeable;
    var pl := BrokenTree(content, rename);
    BrokenTreeHomes(content, rename);
    Placement(pl, batch);
    var s := Migrate(pl.env, pl.start, batch).0;
    assert Fulfilled(pl, s.rows, "A") && Fulfilled(pl, s.rows, "B") && Fulfilled(pl, s.rows, "X");
  }
}
