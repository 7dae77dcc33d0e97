/** Where a files pass puts its items. For an acyclic batch the outcome of every item is given by
    a recursion on the parent graph (Home) that does not mention the listing order. */
module FilesPlacement {
  import opened Wrappers
  import opened State
  import opened FilesPass
  import opened FilesAccounting

  /** A batch without its order: the items by id, the state before the pass, and a rank that
      decreases from an item to its parent (the parent graph has no cycle). */
  datatype Plan = Plan(env: Env, start: Pass, items: map<SourceId, SourceFile>, rank: map<SourceId, nat>)

  /** The calls that raise are given, those among them that meet an item of the other kind under their name
      included; FilesNames shows that every pass is one of such a plan. */
  ghost predicate ValidPlan(pl: Plan) {
    && pl.start.failed == {} && pl.env.names.Known?
    && (forall id <- pl.items :: pl.items[id].sourceId == id && id in pl.rank)
    && (forall id <- pl.items :: BelowParent(pl, id))
  }

  ghost predicate BelowParent(pl: Plan, id: SourceId)
    requires id in pl.items && id in pl.rank
  {
    var p := pl.items[id].parentId;
    p.Some? && p.value in pl.items ==> p.value in pl.rank && pl.rank[p.value] < pl.rank[id]
  }

  /** `batch` lists the items of the plan, each once, in some order. */
  ghost predicate Lists(pl: Plan, batch: seq<SourceFile>) {
    Distinct(batch) && Drawn(pl, batch) && Ids(batch) == pl.items.Keys
  }

  ghost predicate Drawn(pl: Plan, batch: seq<SourceFile>) {
    forall f <- batch :: f.sourceId in pl.items && pl.items[f.sourceId] == f
  }

  // ----- the reference: where each item belongs --------------------------------------------

  /** At the folder, or nowhere because the creation of the parent folder failed. */
  datatype Place = At(folder: DriveItem) | Lost

  function Home(pl: Plan, id: SourceId): Place
    requires ValidPlan(pl) && id in pl.items
    decreases pl.rank[id]
  {
    match pl.items[id].parentId
    case None => At(Root)
    case Some(p) =>
      if p in pl.start.folderMap then At(pl.start.folderMap[p])
      else if p in pl.items && pl.items[p].isFolder then
        assert BelowParent(pl, id);
        match Home(pl, p)
        case Lost => At(Root)
        case At(folder) => if p in pl.env.raises then Lost else At(FolderIn(folder, pl.items[p].name))
      else At(Root)
  }

  /** The destination folder that the pass makes for a source folder. */
  function Created(pl: Plan, id: SourceId): Option<DriveItem>
    requires ValidPlan(pl) && id in pl.items
  {
    match Home(pl, id)
    case Lost => None
    case At(folder) =>
      if pl.items[id].isFolder && id !in pl.env.raises then Some(FolderIn(folder, pl.items[id].name)) else None
  }

  predicate Served(env: Env, id: SourceId) {
    id in env.fetched && id !in env.raises
  }

  /** The first sweep can create the folder: its chain of parents reaches the root or FolderMap
      through folders that are created. */
  predicate Grounded(pl: Plan, id: SourceId)
    requires ValidPlan(pl) && id in pl.items
    decreases pl.rank[id]
  {
    match pl.items[id].parentId
    case None => true
    case Some(p) =>
      p in pl.start.folderMap
      || (p in pl.items && Created(pl, p).Some? && assert BelowParent(pl, id); Grounded(pl, p))
  }

  /** The item is written under its parent, unless its parent failed. */
  predicate Placeable(pl: Plan, id: SourceId)
    requires id in pl.items
  {
    var f := pl.items[id];
    if f.isFolder then id !in pl.env.raises
    else !UpToDate(pl.env, pl.start.rows, f) && !f.skip
         && Existing(pl.env, pl.start.rows, f).None? && Served(pl.env, id)
  }

  /** The item is uploaded as a new file. */
  predicate Uploads(pl: Plan, id: SourceId)
    requires ValidPlan(pl) && id in pl.items
  {
    !pl.items[id].isFolder && Placeable(pl, id) && Home(pl, id).At?
  }

  ghost predicate HasPlaceableChild(pl: Plan, id: SourceId) {
    exists child <- pl.items :: pl.items[child].parentId == Some(id) && Placeable(pl, child)
  }

  /** No folder moves under its children: a folder that FolderMap already has, that the first sweep
      can reach and under which the pass writes is created again under the recorded id. */
  ghost predicate Steady(pl: Plan)
    requires ValidPlan(pl)
  {
    forall id <- pl.items ::
      id in pl.start.folderMap && Created(pl, id).Some? && Grounded(pl, id) && HasPlaceableChild(pl, id) ==>
        Created(pl, id).value == pl.start.folderMap[id]
  }

  /** The place of the item does not depend on the listing order: no folder on its way up that FolderMap
      already has is created again elsewhere. */
  predicate Fixed(pl: Plan, id: SourceId)
    requires ValidPlan(pl) && id in pl.items
    decreases pl.rank[id]
  {
    match pl.items[id].parentId
    case None => true
    case Some(p) =>
      p in pl.items && Created(pl, p).Some? ==>
        && (p in pl.start.folderMap ==> Created(pl, p).value == pl.start.folderMap[p])
        && assert BelowParent(pl, id); Fixed(pl, p)
  }

  /** The reference says where the item is written. */
  ghost predicate Sure(pl: Plan, id: SourceId)
    requires ValidPlan(pl) && id in pl.items
  {
    Steady(pl) || Fixed(pl, id)
  }

  /** The final name of the file; a large one may be renamed. */
  ghost predicate MayBeNamed(env: Env, id: SourceId, name: string)
    requires id in env.fetched
  {
    var file := env.fetched[id];
    name == file.finalName || (!IsSmall(file) && RenamedTo(env, id, name))
  }

  /** The name is one that a rename can give to the file, its own being taken. */
  ghost predicate RenamedTo(env: Env, id: SourceId, name: string)
    requires id in env.fetched
  {
    exists taken :: env.fetched[id].finalName in taken && name == env.rename(env.fetched[id].finalName, taken)
  }

  /** The row of an item after the pass; where the item is written, if the reference says so. Whether the
      path of a large upload is taken depends on the order of the uploads, so its name is left open. */
  ghost predicate Fulfilled(pl: Plan, rows: Rows, id: SourceId)
    requires ValidPlan(pl) && id in pl.items
  {
    var f := pl.items[id];
    if f.isFolder then
      id in rows && match Created(pl, id)
      case Some(dest) =>
        rows[id].status.Done? && rows[id].sourceHash == f.contentHash && rows[id].destId.Some?
        && (Sure(pl, id) ==> rows[id].destId.value == dest)
      case None => rows[id] == Row(Failed, None, None)
    else if UpToDate(pl.env, pl.start.rows, f) then SameRow(pl.start.rows, rows, id)
    else if f.skip then id in rows && rows[id] == Row(Skipped, None, None)
    else match Existing(pl.env, pl.start.rows, f)
      case Some(dest) =>
        id in rows && rows[id] == if Served(pl.env, id) then Row(Done, Some(dest), f.contentHash)
                                  else Row(Failed, Some(dest), None)
      case None =>
        id in rows && match Home(pl, id)
        case Lost => rows[id] == Row(Failed, None, None)
        case At(folder) =>
          if !Served(pl.env, id) then rows[id] == Row(Failed, None, None)
          else rows[id].status.Done? && rows[id].sourceHash == f.contentHash
               && rows[id].destId.Some? && rows[id].destId.value.FileIn?
               && (Sure(pl, id) ==> rows[id].destId.value.parent == folder)
               && MayBeNamed(pl.env, id, rows[id].destId.value.name)
  }

  // ----- the invariant of the pass ---------------------------------------------------------

  function Lookup(m: map<SourceId, DriveItem>, id: SourceId): Option<DriveItem> {
    if id in m then Some(m[id]) else None
  }

  ghost function ExpectedFolder(pl: Plan, open: set<SourceId>, id: SourceId): Option<DriveItem>
    requires ValidPlan(pl)
  {
    if id in pl.items && id !in open && Created(pl, id).Some? then Created(pl, id)
    else Lookup(pl.start.folderMap, id)
  }

  /** The entry of FolderMap: there or not, and the folder itself if the reference says where it is. */
  ghost predicate MapsTo(pl: Plan, folderMap: map<SourceId, DriveItem>, open: set<SourceId>, id: SourceId)
    requires ValidPlan(pl)
  {
    var entry, expected := Lookup(folderMap, id), ExpectedFolder(pl, open, id);
    (entry.Some? <==> expected.Some?) && (entry == expected || (id in pl.items && id !in open && Created(pl, id).Some? && !Sure(pl, id)))
  }

  ghost predicate FailedFolder(pl: Plan, id: SourceId)
    requires ValidPlan(pl) && id in pl.items
  {
    pl.items[id].isFolder && Home(pl, id).At? && id in pl.env.raises
  }

  /** The pass has settled all items but `open`, each as the reference says. */
  ghost predicate Stage(pl: Plan, s: Pass, open: set<SourceId>)
    requires ValidPlan(pl)
  {
    && (forall id <- open :: SameRow(pl.start.rows, s.rows, id))
    && (forall id <- pl.items :: id !in open ==> Fulfilled(pl, s.rows, id))
    && (forall id: SourceId :: MapsTo(pl, s.folderMap, open, id))
    && (forall id: SourceId :: id in s.failed <==> id in pl.items && id !in open && FailedFolder(pl, id))
    && (forall id: SourceId :: s.drive.uploads[id] == pl.start.drive.uploads[id] + NewUploads(pl, open, id))
  }

  ghost function NewUploads(pl: Plan, open: set<SourceId>, id: SourceId): nat
    requires ValidPlan(pl)
  {
    if id in pl.items && id !in open && Uploads(pl, id) then 1 else 0
  }

  /** In the first sweep (`early`) only grounded folders are created; afterwards no open item
      has a parent that FolderMap had. */
  ghost predicate Phase(pl: Plan, open: set<SourceId>, early: bool)
    requires ValidPlan(pl) && open <= pl.items.Keys
  {
    if early then forall id <- pl.items :: id !in open && Created(pl, id).Some? ==> Grounded(pl, id)
    else forall id <- open :: Waits(pl, pl.items[id])
  }

  ghost predicate Waits(pl: Plan, f: SourceFile) {
    f.parentId.Some? && f.parentId.value !in pl.start.folderMap
  }

  lemma ParentMatches(pl: Plan, s: Pass, open: set<SourceId>, f: SourceFile, defer: bool, early: bool)
    requires ValidPlan(pl) && open <= pl.items.Keys && Stage(pl, s, open) && Phase(pl, open, early)
    requires f.sourceId in open && pl.items[f.sourceId] == f
    requires !defer ==> f.parentId.None? || f.parentId.value !in open
    ensures match ParentOf(s, f, defer)
            case Under(folder) =>
              && Home(pl, f.sourceId).At?
              && (Placeable(pl, f.sourceId) && Sure(pl, f.sourceId) ==> Home(pl, f.sourceId).folder == folder)
              && (early && defer ==> Grounded(pl, f.sourceId))
            case ParentFailed => Home(pl, f.sourceId) == Lost
            case ParentUnknown => defer && Waits(pl, f)
  {
    if f.parentId.Some? {
      var p := f.parentId.value;
      assert MapsTo(pl, s.folderMap, open, p);
      assert p in s.failed <==> p in pl.items && p !in open && FailedFolder(pl, p);
      if p in pl.items { assert BelowParent(pl, f.sourceId); }
      assert Placeable(pl, f.sourceId) ==> HasPlaceableChild(pl, p);
      if p in pl.items && Created(pl, p).Some? && Sure(pl, f.sourceId) { assert Sure(pl, p); }
    }
  }

  /** The effect on the store that settles an item. */
  ghost predicate SettlesItem(pl: Plan, s: Pass, s': Pass, id: SourceId)
    requires ValidPlan(pl) && id in pl.items
  {
    && SameOutside(s.rows, s'.rows, {id})
    && Fulfilled(pl, s'.rows, id)
    && (if Created(pl, id).Some? then
          id in s'.folderMap && s'.folderMap == s.folderMap[id := s'.folderMap[id]]
          && (Sure(pl, id) ==> s'.folderMap[id] == Created(pl, id).value)
        else s'.folderMap == s.folderMap)
    && s'.failed == (if FailedFolder(pl, id) then s.failed + {id} else s.failed)
    && s'.drive.uploads == (if Uploads(pl, id) then s.drive.uploads + multiset{id} else s.drive.uploads)
  }

  lemma CloseItem(pl: Plan, s: Pass, s': Pass, open: set<SourceId>, id: SourceId)
    requires ValidPlan(pl) && open <= pl.items.Keys && Stage(pl, s, open) && id in open
    requires SettlesItem(pl, s, s', id)
    ensures Stage(pl, s', open - {id})
  {
    hide Fulfilled, Created, Home, FailedFolder, Uploads, Sure;
    forall k: SourceId
      ensures MapsTo(pl, s'.folderMap, open - {id}, k)
      ensures k in s'.failed <==> k in pl.items && k !in open - {id} && FailedFolder(pl, k)
    {
      assert MapsTo(pl, s.folderMap, open, k);
      assert k in s.failed <==> k in pl.items && k !in open && FailedFolder(pl, k);
    }
    assert NewUploads(pl, open, id) == 0;
    forall k <- pl.items | k !in open - {id}
      ensures Fulfilled(pl, s'.rows, k)
    {
      if k != id {
        assert SameRow(s.rows, s'.rows, k);
        FulfilledByRow(pl, s.rows, s'.rows, k);
      }
    }
  }

  lemma FulfilledByRow(pl: Plan, rows: Rows, rows': Rows, id: SourceId)
    requires ValidPlan(pl) && id in pl.items && Fulfilled(pl, rows, id) && SameRow(rows, rows', id)
    ensures Fulfilled(pl, rows', id)
  {
    hide Home, Created, UpToDate, Served, Sure, MayBeNamed;
  }

  /** The parent is where the reference says. */
  ghost predicate Agrees(pl: Plan, target: Target, id: SourceId)
    requires ValidPlan(pl) && id in pl.items
  {
    match target
    case Under(folder) =>
      Home(pl, id).At? && (Placeable(pl, id) && Sure(pl, id) ==> Home(pl, id).folder == folder)
    case ParentFailed => Home(pl, id) == Lost
    case ParentUnknown => true
  }

  lemma FolderSettles(pl: Plan, s: Pass, f: SourceFile, target: Target)
    requires ValidPlan(pl) && f.sourceId in pl.items && pl.items[f.sourceId] == f && f.isFolder
    requires Agrees(pl, target, f.sourceId) && !target.ParentUnknown?
    ensures SettlesItem(pl, s, ProcessFolder(pl.env, s, f, target).0, f.sourceId)
  {
  }

  lemma UploadPath(env: Env, drive: Drive, target: Target, id: SourceId)
    ensures target.Under? && id in env.fetched ==>
              var dest := UploadTarget(env, drive, id, target.folder);
              dest.FileIn? && dest.parent == target.folder && MayBeNamed(env, id, dest.name)
  {
    if target.Under? && id in env.fetched { TakenNames(drive, target.folder, env.fetched[id].finalName); }
  }

  lemma TakenNames(drive: Drive, folder: DriveItem, name: string)
    ensures FileIn(folder, name) in drive.contents || FolderIn(folder, name) in drive.folders ==> name in Taken(drive, folder)
  {
    if FileIn(folder, name) in drive.contents { assert FileIn(folder, name).name in Taken(drive, folder); }
    if FolderIn(folder, name) in drive.folders { assert FolderIn(folder, name).name in Taken(drive, folder); }
  }

  lemma ContentSettles(pl: Plan, s: Pass, f: SourceFile, target: Target)
    requires ValidPlan(pl) && f.sourceId in pl.items && pl.items[f.sourceId] == f && !f.isFolder
    requires Agrees(pl, target, f.sourceId) && SameRow(pl.start.rows, s.rows, f.sourceId)
    requires !UpToDate(pl.env, s.rows, f) && !f.skip
    ensures var (s', o) := ProcessContent(pl.env, s, f, target);
            if o.Defer? then s' == s && target.ParentUnknown? else SettlesItem(pl, s, s', f.sourceId)
  {
    hide Home, UploadTarget, Sure, MayBeNamed;
    UploadPath(pl.env, s.drive, target, f.sourceId);
  }

  lemma AttemptSettles(pl: Plan, s: Pass, f: SourceFile, defer: bool)
    requires ValidPlan(pl) && f.sourceId in pl.items && pl.items[f.sourceId] == f
    requires SameRow(pl.start.rows, s.rows, f.sourceId) && Agrees(pl, ParentOf(s, f, defer), f.sourceId)
    ensures var (s', o) := Attempt(pl.env, s, f, defer);
            if o.Defer? then s' == s && ParentOf(s, f, defer).ParentUnknown?
            else SettlesItem(pl, s, s', f.sourceId)
  {
    hide Home, ParentOf, Sure;
    var target := ParentOf(s, f, defer);
    if f.isFolder {
      if !target.ParentUnknown? { FolderSettles(pl, s, f, target); }
    } else if !UpToDate(pl.env, s.rows, f) && !f.skip {
      hide ProcessContent;
      ContentSettles(pl, s, f, target);
    }
  }

  /** One call of _process_file either defers the item or settles it as the reference says. */
  lemma ProcessStage(pl: Plan, s: Pass, open: set<SourceId>, f: SourceFile, defer: bool, early: bool)
    requires ValidPlan(pl) && open <= pl.items.Keys && Stage(pl, s, open) && Phase(pl, open, early)
    requires f.sourceId in open && pl.items[f.sourceId] == f
    requires (!defer ==> f.parentId.None? || f.parentId.value !in open) && (early ==> defer)
    ensures var (s', o) := Process(pl.env, s, f, defer);
            if o.Defer? then Stage(pl, s', open) && Waits(pl, f)
            else Stage(pl, s', open - {f.sourceId}) && Phase(pl, open - {f.sourceId}, early)
  {
    ParentMatches(pl, s, open, f, defer, early);
    AttemptSettles(pl, s, f, defer);
    hide Attempt, Home, ParentOf, Fulfilled, Placeable, Sure;
    var (s', o) := Process(pl.env, s, f, defer);
    if !o.Defer? {
      CloseItem(pl, s, s', open, f.sourceId);
    }
  }

  // ----- sweeps and rounds -----------------------------------------------------------------

  /** The items that a sweep over `batch` leaves open. */
  function StillOpen(open: set<SourceId>, batch: seq<SourceFile>, still: seq<SourceFile>): set<SourceId> {
    open - (Ids(batch) - Ids(still))
  }

  ghost predicate ParentsSettled(batch: seq<SourceFile>, open: set<SourceId>) {
    forall f <- batch :: f.parentId.None? || f.parentId.value !in open
  }

  ghost predicate SweepStaged(pl: Plan, open: set<SourceId>, batch: seq<SourceFile>, r: Sweep, early: bool)
    requires ValidPlan(pl) && open <= pl.items.Keys
  {
    var open' := StillOpen(open, batch, r.still);
    && Stage(pl, r.pass, open') && Phase(pl, open', early)
    && Drawn(pl, r.still) && Ids(r.still) <= Ids(batch)
    && (forall f <- r.still :: Waits(pl, f))
  }

  lemma RecordStage(pl: Plan, open: set<SourceId>, batch: seq<SourceFile>, r: Sweep, f: SourceFile,
                    result: (Pass, Outcome), early: bool)
    requires ValidPlan(pl) && open <= pl.items.Keys && SweepStaged(pl, open, batch, r, early)
    requires f.sourceId in open && f.sourceId !in Ids(batch) && pl.items[f.sourceId] == f
    requires var open' := StillOpen(open, batch, r.still);
             if result.1.Defer? then Stage(pl, result.0, open') && Waits(pl, f)
             else Stage(pl, result.0, open' - {f.sourceId}) && Phase(pl, open' - {f.sourceId}, early)
    ensures SweepStaged(pl, open, batch + [f], Record(r, f, result), early)
  {
    hide Stage, Ids, Phase, Waits;
    Snoc(batch, f);
    Snoc(r.still, f);
    var open' := StillOpen(open, batch, r.still);
    if result.1.Defer? {
      assert StillOpen(open, batch + [f], r.still + [f]) == open';
    } else {
      assert StillOpen(open, batch + [f], r.still) == open' - {f.sourceId};
    }
  }

  lemma {:induction false} SweepStage(pl: Plan, s: Pass, open: set<SourceId>, batch: seq<SourceFile>, defer: bool, early: bool)
    requires ValidPlan(pl) && open <= pl.items.Keys && Stage(pl, s, open) && Phase(pl, open, early)
    requires Distinct(batch) && Drawn(pl, batch) && Ids(batch) <= open
    requires (!defer ==> ParentsSettled(batch, open)) && (early ==> defer)
    ensures SweepStaged(pl, open, batch, RunBatch(pl.env, s, batch, defer), early)
  {
    hide Stage, Phase, ParentOf, Waits;
    if batch == [] {
      assert StillOpen(open, [], []) == open;
    } else {
      var init, f := batch[..|batch| - 1], batch[|batch| - 1];
      assert batch == init + [f];
      Snoc(init, f);
      hide Ids, Process, Record, RunBatch, Distinct;
      RunBatchStep(pl.env, s, init, f, defer);
      SweepStage(pl, s, open, init, defer, early);
      var before := RunBatch(pl.env, s, init, defer);
      var open' := StillOpen(open, init, before.still);
      ProcessStage(pl, before.pass, open', f, defer, early);
      RecordStage(pl, open, init, before, f, Process(pl.env, before.pass, f, defer), early);
    }
  }

  lemma {:induction false} OrphanParents(batch: seq<SourceFile>, pending: set<SourceId>)
    ensures ParentsSettled(ParentNotIn(batch, pending), pending)
    ensures forall f <- ParentNotIn(batch, pending) :: f in batch
    ensures forall f <- batch :: f.parentId.None? || f.parentId.value !in pending ==> f in ParentNotIn(batch, pending)
  {
    if batch != [] {
      var init, f := batch[..|batch| - 1], batch[|batch| - 1];
      assert batch == init + [f];
      OrphanParents(init, pending);
    }
  }

  lemma {:induction false} MemberOf(batch: seq<SourceFile>, id: SourceId) returns (f: SourceFile)
    requires id in Ids(batch)
    ensures f in batch && f.sourceId == id
  {
    var last := batch[|batch| - 1];
    if last.sourceId == id { f := last; } else { f := MemberOf(batch[..|batch| - 1], id); }
  }

  lemma {:induction false} IdOf(batch: seq<SourceFile>, f: SourceFile)
    requires f in batch
    ensures f.sourceId in Ids(batch)
  {
    if f != batch[|batch| - 1] { IdOf(batch[..|batch| - 1], f); }
  }

  /** An acyclic batch always has an item whose parent is not in it: follow the parents, the rank
      decreases. */
  lemma OrphanExists(pl: Plan, batch: seq<SourceFile>, f: SourceFile) returns (orphan: SourceFile)
    requires ValidPlan(pl) && Drawn(pl, batch) && f in batch
    ensures orphan in batch && (orphan.parentId.None? || orphan.parentId.value !in Ids(batch))
    decreases pl.rank[f.sourceId]
  {
    if f.parentId.Some? && f.parentId.value in Ids(batch) {
      var parent := MemberOf(batch, f.parentId.value);
      assert BelowParent(pl, f.sourceId);
      orphan := OrphanExists(pl, batch, parent);
    } else {
      orphan := f;
    }
  }

  lemma OrphansSettled(pl: Plan, batch: seq<SourceFile>)
    requires ValidPlan(pl) && Drawn(pl, batch) && batch != []
    ensures ParentsSettled(Orphans(batch), Ids(batch)) && Drawn(pl, Orphans(batch))
  {
    OrphanParents(batch, Ids(batch));
    var orphan := OrphanExists(pl, batch, batch[0]);
  }

  lemma {:induction false} WithoutDrawn(batch: seq<SourceFile>, ids: set<SourceId>)
    ensures forall f <- Without(batch, ids) :: f in batch
  {
    if batch != [] {
      var init, f := batch[..|batch| - 1], batch[|batch| - 1];
      assert batch == init + [f];
      WithoutDrawn(init, ids);
    }
  }

  lemma RoundStage(pl: Plan, s: Pass, deferred: seq<SourceFile>)
    requires ValidPlan(pl) && deferred != [] && Distinct(deferred) && Drawn(pl, deferred)
    requires Ids(deferred) <= pl.items.Keys && Stage(pl, s, Ids(deferred)) && Phase(pl, Ids(deferred), false)
    ensures var r := OneRound(pl.env, s, deferred);
            && Drawn(pl, r.still) && Distinct(r.still) && Ids(r.still) <= Ids(deferred)
            && Stage(pl, r.pass, Ids(r.still)) && Phase(pl, Ids(r.still), false)
  {
    hide Stage, Phase, Waits, RunBatch, Distinct, Drawn;
    var open := Ids(deferred);
    SweepStage(pl, s, open, deferred, true, false);
    SweepCounts(pl.env, s, deferred, true);
    SweepDistinct(pl.env, s, deferred, true);
    var sweep := RunBatch(pl.env, s, deferred, true);
    if sweep.still == deferred {
      assert StillOpen(open, deferred, deferred) == open;
      OrphanStage(pl, sweep.pass, deferred);
    } else {
      assert StillOpen(open, deferred, sweep.still) == Ids(sweep.still);
    }
  }

  lemma OrphanStage(pl: Plan, s: Pass, deferred: seq<SourceFile>)
    requires ValidPlan(pl) && deferred != [] && Distinct(deferred) && Drawn(pl, deferred)
    requires Ids(deferred) <= pl.items.Keys && Stage(pl, s, Ids(deferred)) && Phase(pl, Ids(deferred), false)
    ensures var second := RunBatch(pl.env, s, Orphans(deferred), false);
            var rest := Without(deferred, Ids(Orphans(deferred)));
            && Drawn(pl, rest) && Distinct(rest) && Ids(rest) <= Ids(deferred)
            && Stage(pl, second.pass, Ids(rest)) && Phase(pl, Ids(rest), false)
  {
    hide Stage, Phase, Waits, RunBatch, Distinct, Orphans;
    var orphans := Orphans(deferred);
    OrphansSettled(pl, deferred);
    OrphansLeave(deferred);
    SweepStage(pl, s, Ids(deferred), orphans, false, false);
    SweepCounts(pl.env, s, orphans, false);
    WithoutDrawn(deferred, Ids(orphans));
    assert StillOpen(Ids(deferred), orphans, []) == Ids(Without(deferred, Ids(orphans)));
  }

  lemma DistinctMore(init: seq<SourceFile>, still: seq<SourceFile>, f: SourceFile)
    requires Distinct(init + [f]) && Distinct(still) && Ids(still) <= Ids(init)
    ensures Distinct(still + [f]) && Ids(still + [f]) <= Ids(init + [f]) && Ids(still) <= Ids(init + [f])
  {
    Snoc(init, f);
    Snoc(still, f);
    hide Ids, Distinct;
  }

  lemma {:induction false} SweepDistinct(env: Env, s: Pass, batch: seq<SourceFile>, defer: bool)
    requires Distinct(batch)
    ensures Distinct(RunBatch(env, s, batch, defer).still)
    ensures Ids(RunBatch(env, s, batch, defer).still) <= Ids(batch)
  {
    if batch != [] {
      hide Process, RunBatch, Ids, Distinct;
      var init, f := batch[..|batch| - 1], batch[|batch| - 1];
      assert batch == init + [f];
      Snoc(init, f);
      RunBatchStep(env, s, init, f, defer);
      SweepDistinct(env, s, init, defer);
      DistinctMore(init, RunBatch(env, s, init, defer).still, f);
    }
  }

  lemma {:induction false} RoundsStage(pl: Plan, s: Pass, deferred: seq<SourceFile>)
    requires ValidPlan(pl) && Distinct(deferred) && Drawn(pl, deferred)
    requires Ids(deferred) <= pl.items.Keys && Stage(pl, s, Ids(deferred)) && Phase(pl, Ids(deferred), false)
    ensures Stage(pl, Rounds(pl.env, s, deferred).0, {})
    decreases |deferred|
  {
    hide Stage, Phase, OneRound, Distinct;
    if deferred != [] {
      var r := OneRound(pl.env, s, deferred);
      RoundStage(pl, s, deferred);
      RoundsStage(pl, r.pass, r.still);
    }
  }

  /** Every item is settled, as the reference says. */
  ghost predicate Settled(pl: Plan, s: Pass)
    requires ValidPlan(pl)
  {
    && (forall id <- pl.items :: Fulfilled(pl, s.rows, id))
    && (forall id: SourceId :: MapsTo(pl, s.folderMap, {}, id))
    && (forall id: SourceId :: id in s.failed <==> id in pl.items && FailedFolder(pl, id))
    && (forall id: SourceId :: s.drive.uploads[id] == pl.start.drive.uploads[id] + NewUploads(pl, {}, id))
  }

  /** Main result. Let the batch have distinct ids and an acyclic parent graph. Whatever calls raise, and in
      whatever order the items are listed, the pass ends with the status of every row as the reference
      says, FolderMap extended by exactly the folders created, the failed set exactly the folders whose
      own creation raised, and exactly one upload for each file that the reference uploads; and every
      item whose way up has no folder that moves is where the reference says. */
  lemma Fates(pl: Plan, batch: seq<SourceFile>)
    requires ValidPlan(pl) && Lists(pl, batch)
    ensures Settled(pl, Migrate(pl.env, pl.start, batch).0)
  {
    var first := RunBatch(pl.env, pl.start, batch, true);
    SweepStage(pl, pl.start, pl.items.Keys, batch, true, true);
    SweepDistinct(pl.env, pl.start, batch, true);
    var open := Ids(first.still);
    assert StillOpen(pl.items.Keys, batch, first.still) == open;
    forall id <- open ensures Waits(pl, pl.items[id]) {
      var f := MemberOf(first.still, id);
    }
    hide *;
    RoundsStage(pl, first.pass, first.still);
    AllSettled(pl, Rounds(pl.env, first.pass, first.still).0);
    MigrateIs(pl.env, pl.start, batch);
  }

  lemma AllSettled(pl: Plan, s: Pass)
    requires ValidPlan(pl) && Stage(pl, s, {})
    ensures Settled(pl, s)
  {
    hide Fulfilled, MapsTo, NewUploads, FailedFolder;
  }

  lemma MigrateIs(env: Env, s: Pass, items: seq<SourceFile>)
    ensures var first := RunBatch(env, s, items, true);
            Migrate(env, s, items).0 == Rounds(env, first.pass, first.still).0
  {
    hide RunBatch, Rounds;
  }

  /** Main result. If no folder of the batch moves under its children, every item and folder is where the
      reference says, in every listing order. */
  lemma Placement(pl: Plan, batch: seq<SourceFile>)
    requires ValidPlan(pl) && Steady(pl) && Lists(pl, batch)
    ensures var s := Migrate(pl.env, pl.start, batch).0;
            && (forall id <- pl.items :: Fulfilled(pl, s.rows, id))
            && (forall id: SourceId :: Lookup(s.folderMap, id) == ExpectedFolder(pl, {}, id))
            && (forall id: SourceId :: id in s.failed <==> id in pl.items && FailedFolder(pl, id))
            && (forall id: SourceId :: s.drive.uploads[id] == pl.start.drive.uploads[id] + NewUploads(pl, {}, id))
  {
    Fates(pl, batch);
    hide Migrate, Fulfilled, Lists, NewUploads, ExpectedFolder;
    var s := Migrate(pl.env, pl.start, batch).0;
    forall id: SourceId ensures Lookup(s.folderMap, id) == ExpectedFolder(pl, {}, id) {
      assert MapsTo(pl, s.folderMap, {}, id);
    }
  }
}
