/** When a files pass does not depend on the listing order, exactly, for calls that raise whatever the
    order; FilesDriveOrder has the drive decide which calls fail for a name. */
module FilesOrder {
  import opened Wrappers
  import opened State
  import opened FilesPass
  import opened FilesAccounting
  import opened FilesPlacement

  /** Equal up to the name that a renamed upload is given. */
  ghost predicate SameItem(pl: Plan, id: SourceId, a: Option<DriveItem>, b: Option<DriveItem>) {
    a == b || (a.Some? && b.Some? && a.value.FileIn? && b.value.FileIn? && a.value.parent == b.value.parent
               && id in pl.env.fetched && MayBeNamed(pl.env, id, a.value.name) && MayBeNamed(pl.env, id, b.value.name))
  }

  ghost predicate SameResult(pl: Plan, rows: Rows, rows': Rows, id: SourceId) {
    && (id in rows <==> id in rows')
    && (id in rows ==> rows[id].status == rows'[id].status && rows[id].sourceHash == rows'[id].sourceHash
                       && SameItem(pl, id, rows[id].destId, rows'[id].destId))
  }

  /** The two passes leave the same rows and folder map, and made the same uploads. */
  ghost predicate SamePlacement(pl: Plan, s: Pass, s': Pass) {
    && (forall id: SourceId :: SameResult(pl, s.rows, s'.rows, id))
    && s.folderMap == s'.folderMap && s.failed == s'.failed
    && s.drive.uploads == s'.drive.uploads
  }

  ghost predicate OrderIndependent(pl: Plan) {
    forall a, b | Lists(pl, a) && Lists(pl, b) ::
      SamePlacement(pl, Migrate(pl.env, pl.start, a).0, Migrate(pl.env, pl.start, b).0)
  }

  lemma SteadyIsEnough(pl: Plan, a: seq<SourceFile>, b: seq<SourceFile>)
    requires ValidPlan(pl) && HashMeansDone(pl.start.rows) && Steady(pl) && Lists(pl, a) && Lists(pl, b)
    ensures SamePlacement(pl, Migrate(pl.env, pl.start, a).0, Migrate(pl.env, pl.start, b).0)
  {
    hide Migrate, Home, Created, Fulfilled, FailedFolder, NewUploads, ExpectedFolder, FailedIn, Ended, HashMeansDone, MaxCalls, Steady, ValidPlan;
    Placement(pl, a);
    Placement(pl, b);
    Accounting(pl.env, pl.start, a);
    Accounting(pl.env, pl.start, b);
    var s, s' := Migrate(pl.env, pl.start, a).0, Migrate(pl.env, pl.start, b).0;
    forall id: SourceId
      ensures SameResult(pl, s.rows, s'.rows, id) && Lookup(s.folderMap, id) == Lookup(s'.folderMap, id)
    {
      hide Fulfilled, ExpectedFolder;
      if id in pl.items {
        SameFulfilled(pl, s.rows, s'.rows, id);
      } else {
        assert SameRow(pl.start.rows, s.rows, id) && SameRow(pl.start.rows, s'.rows, id);
      }
    }
    MapsAgree(s.folderMap, s'.folderMap);
    assert s.failed == s'.failed;
    assert forall id: SourceId :: s.drive.uploads[id] == s'.drive.uploads[id];
  }

  lemma SameFulfilled(pl: Plan, rows: Rows, rows': Rows, id: SourceId)
    requires ValidPlan(pl) && id in pl.items && Fulfilled(pl, rows, id) && Fulfilled(pl, rows', id) && Steady(pl)
    ensures SameResult(pl, rows, rows', id)
  {
    hide Home, Created, UpToDate, MayBeNamed;
  }

  lemma MapsAgree(m: map<SourceId, DriveItem>, m': map<SourceId, DriveItem>)
    requires forall id: SourceId :: Lookup(m, id) == Lookup(m', id)
    ensures m == m'
  {
    forall id: SourceId
      ensures id in m <==> id in m'
      ensures id in m ==> m[id] == m'[id]
    {
      assert Lookup(m, id) == Lookup(m', id);
    }
  }

  // ----- a folder that moves is seen by its children in two places -------------------------

  function Join(first: Sweep, second: Sweep): Sweep {
    Sweep(second.pass, first.still + second.still, first.failures + second.failures)
  }

  lemma JoinRecord(first: Sweep, second: Sweep, f: SourceFile, result: (Pass, Outcome))
    ensures Join(first, Record(second, f, result)) == Record(Join(first, second), f, result)
  {
    assert first.still + (second.still + [f]) == (first.still + second.still) + [f];
  }

  lemma {:induction false} RunBatchConcat(env: Env, s: Pass, a: seq<SourceFile>, b: seq<SourceFile>, defer: bool)
    ensures var first := RunBatch(env, s, a, defer);
            RunBatch(env, s, a + b, defer) == Join(first, RunBatch(env, first.pass, b, defer))
  {
    hide Process;
    var first := RunBatch(env, s, a, defer);
    if b == [] {
      assert a + b == a && first.still + [] == first.still;
    } else {
      var init, f := b[..|b| - 1], b[|b| - 1];
      assert b == init + [f] && a + b == (a + init) + [f];
      hide Process, RunBatch, Record, Join;
      RunBatchConcat(env, s, a, init, defer);
      RunBatchStep(env, s, a + init, f, defer);
      RunBatchStep(env, first.pass, init, f, defer);
      var second := RunBatch(env, first.pass, init, defer);
      JoinRecord(first, second, f, Process(env, second.pass, f, defer));
      assert Join(first, second).pass == second.pass by { JoinPass(first, second); }
    }
  }

  lemma JoinPass(first: Sweep, second: Sweep)
    ensures Join(first, second).pass == second.pass
  {
  }

  lemma {:induction false} IdsConcat(a: seq<SourceFile>, b: seq<SourceFile>)
    ensures Ids(a + b) == Ids(a) + Ids(b)
    ensures Distinct(a) && Distinct(b) && Ids(a) !! Ids(b) ==> Distinct(a + b)
  {
    if b == [] {
      assert a + b == a;
    } else {
      var init, f := b[..|b| - 1], b[|b| - 1];
      assert b == init + [f] && a + b == (a + init) + [f];
      IdsConcat(a, init);
      Snoc(a + init, f);
      Snoc(init, f);
    }
  }

  /** After a part of the listing that defers nothing, the pass goes on as with the rest alone. */
  lemma MigrateConcat(env: Env, s: Pass, a: seq<SourceFile>, b: seq<SourceFile>)
    requires RunBatch(env, s, a, true).still == []
    ensures Migrate(env, s, a + b).0 == Migrate(env, RunBatch(env, s, a, true).pass, b).0
  {
    RunBatchConcat(env, s, a, b, true);
    hide RunBatch, Rounds;
    var first := RunBatch(env, s, a, true);
    var second := RunBatch(env, first.pass, b, true);
    assert first.still + second.still == second.still;
  }

  /** What a first part of the listing has settled, the rest of the pass leaves alone. */
  lemma PrefixStays(env: Env, s: Pass, a: seq<SourceFile>, b: seq<SourceFile>, id: SourceId)
    requires Distinct(a) && Distinct(b) && Ids(a) !! Ids(b) && HashMeansDone(s.rows)
    requires RunBatch(env, s, a, true).still == [] && id in Ids(a)
    ensures SameRow(RunBatch(env, s, a, true).pass.rows, Migrate(env, s, a + b).0.rows, id)
  {
    hide RunBatch, FailedIn, Migrate, Ids, Distinct;
    MigrateConcat(env, s, a, b);
    SweepAccounts(env, s, a, true);
    MigrateSettles(env, RunBatch(env, s, a, true).pass, b);
  }

  lemma ItemOf(pl: Plan, id: SourceId)
    requires ValidPlan(pl) && id in pl.items
    ensures pl.items[id].sourceId == id
  {
  }

  lemma ListRest(pl: Plan, ids: set<SourceId>) returns (batch: seq<SourceFile>)
    requires ValidPlan(pl) && ids <= pl.items.Keys
    ensures Distinct(batch) && Drawn(pl, batch) && Ids(batch) == ids
  {
    if ids == {} {
      batch := [];
    } else {
      hide Ids, Distinct, ValidPlan;
      var id :| id in ids;
      ItemOf(pl, id);
      var rest := ListRest(pl, ids - {id});
      Snoc(rest, pl.items[id]);
      batch := rest + [pl.items[id]];
    }
  }

  /** The folder after its parents, up to the root or to one that FolderMap has. */
  function Chain(pl: Plan, id: SourceId): seq<SourceFile>
    requires ValidPlan(pl) && id in pl.items && Grounded(pl, id)
    decreases pl.rank[id]
  {
    var p := pl.items[id].parentId;
    assert BelowParent(pl, id);
    (if p.None? || p.value in pl.start.folderMap then [] else Chain(pl, p.value)) + [pl.items[id]]
  }

  lemma {:induction false} ChainListed(pl: Plan, id: SourceId)
    requires ValidPlan(pl) && id in pl.items && Grounded(pl, id)
    ensures Distinct(Chain(pl, id)) && Drawn(pl, Chain(pl, id)) && Ids(Chain(pl, id)) <= pl.items.Keys
    ensures forall k <- Ids(Chain(pl, id)) :: pl.rank[k] <= pl.rank[id]
    decreases pl.rank[id]
  {
    var p := pl.items[id].parentId;
    if p.None? || p.value in pl.start.folderMap {
      Snoc([], pl.items[id]);
    } else {
      assert BelowParent(pl, id);
      ChainListed(pl, p.value);
      Snoc(Chain(pl, p.value), pl.items[id]);
    }
  }

  lemma CreatesFolder(pl: Plan, s: Pass, id: SourceId)
    requires ValidPlan(pl) && id in pl.items && Created(pl, id).Some?
    requires ParentOf(s, pl.items[id], true) == Under(Home(pl, id).folder)
    ensures var (s', o) := Process(pl.env, s, pl.items[id], true);
            o.Ok? && id in s'.folderMap && s'.folderMap[id] == Created(pl, id).value
  {
    hide Home, ParentOf;
  }

  /** The parents-first chain is created without any deferral. */
  lemma {:induction false} ChainRuns(pl: Plan, id: SourceId)
    requires ValidPlan(pl) && id in pl.items && Grounded(pl, id) && Created(pl, id).Some?
    ensures var r := RunBatch(pl.env, pl.start, Chain(pl, id), true);
            && r.still == [] && id in r.pass.folderMap
            && r.pass.folderMap[id] == Created(pl, id).value
    decreases pl.rank[id]
  {
    hide Process;
    var p, f := pl.items[id].parentId, pl.items[id];
    var before := if p.None? || p.value in pl.start.folderMap then [] else Chain(pl, p.value);
    assert Chain(pl, id) == before + [f];
    if p.Some? && p.value !in pl.start.folderMap {
      assert BelowParent(pl, id);
      ChainRuns(pl, p.value);
    }
    var r := RunBatch(pl.env, pl.start, before, true);
    RunBatchStep(pl.env, pl.start, before, f, true);
    hide RunBatch;
    CreatesFolder(pl, r.pass, id);
  }

  /** A placeable item whose parent FolderMap has lands under it. */
  lemma LandsUnder(pl: Plan, s: Pass, child: SourceId)
    requires ValidPlan(pl) && child in pl.items && Placeable(pl, child)
    requires SameRow(pl.start.rows, s.rows, child)
    requires pl.items[child].parentId.Some? && pl.items[child].parentId.value in s.folderMap
    ensures var (s', o) := Process(pl.env, s, pl.items[child], true);
            && o.Ok? && child in s'.rows && s'.rows[child].destId.Some?
            && var dest := s'.rows[child].destId.value;
               !dest.Root? && dest.parent == s.folderMap[pl.items[child].parentId.value]
  {
  }

  ghost predicate ChildIn(s: Pass, child: SourceId, folder: DriveItem) {
    && child in s.rows && s.rows[child].destId.Some?
    && !s.rows[child].destId.value.Root? && s.rows[child].destId.value.parent == folder
  }

  /** Listing `before` and then the child puts the child where FolderMap then has its parent. */
  lemma ListedAfter(pl: Plan, before: seq<SourceFile>, p: SourceId, child: SourceId) returns (batch: seq<SourceFile>)
    requires ValidPlan(pl) && HashMeansDone(pl.start.rows)
    requires child in pl.items && pl.items[child].parentId == Some(p) && Placeable(pl, child)
    requires Distinct(before) && Drawn(pl, before) && Ids(before) <= pl.items.Keys - {child}
    requires var r := RunBatch(pl.env, pl.start, before, true); r.still == [] && p in r.pass.folderMap
    ensures Lists(pl, batch)
    ensures ChildIn(Migrate(pl.env, pl.start, batch).0, child,
                    RunBatch(pl.env, pl.start, before, true).pass.folderMap[p])
  {
    hide Process, RunBatch, Ids, Distinct, Migrate, Placeable, Record, FailedIn;
    var f := pl.items[child];
    var rest := ListRest(pl, pl.items.Keys - Ids(before) - {child});
    batch := before + [f] + rest;
    Snoc(before, f);
    IdsConcat(before + [f], rest);
    SweepAccounts(pl.env, pl.start, before, true);
    ThenChild(pl, before, p, child);
    PrefixStays(pl.env, pl.start, before + [f], rest, child);
  }

  lemma ThenChild(pl: Plan, before: seq<SourceFile>, p: SourceId, child: SourceId)
    requires ValidPlan(pl) && child in pl.items && pl.items[child].parentId == Some(p) && Placeable(pl, child)
    requires var r := RunBatch(pl.env, pl.start, before, true);
             r.still == [] && p in r.pass.folderMap && SameRow(pl.start.rows, r.pass.rows, child)
    ensures var r := RunBatch(pl.env, pl.start, before, true);
            var r' := RunBatch(pl.env, pl.start, before + [pl.items[child]], true);
            r'.still == [] && ChildIn(r'.pass, child, r.pass.folderMap[p])
  {
    hide Process, RunBatch, Placeable;
    var r := RunBatch(pl.env, pl.start, before, true);
    RunBatchStep(pl.env, pl.start, before, pl.items[child], true);
    LandsUnder(pl, r.pass, child);
  }

  /** A folder that moves, with a placeable child: one listing puts the child under the recorded
      folder, another under the new one. */
  lemma MovedFolder(pl: Plan, p: SourceId, child: SourceId)
    requires ValidPlan(pl) && HashMeansDone(pl.start.rows)
    requires p in pl.items && p in pl.start.folderMap && Grounded(pl, p) && Created(pl, p).Some?
    requires Created(pl, p).value != pl.start.folderMap[p]
    requires child in pl.items && pl.items[child].parentId == Some(p) && Placeable(pl, child)
    ensures !OrderIndependent(pl)
  {
    hide Migrate, Lists, Created, RunBatch, Placeable, Ids, Distinct, Grounded;
    EmptyPrefix(pl);
    var early := ListedAfter(pl, [], p, child);
    var late := ListedLate(pl, p, child);
    var s, s' := Migrate(pl.env, pl.start, early).0, Migrate(pl.env, pl.start, late).0;
    assert !SameResult(pl, s.rows, s'.rows, child);
  }

  lemma EmptyPrefix(pl: Plan)
    ensures Distinct([]) && Ids([]) == {} && RunBatch(pl.env, pl.start, [], true) == Sweep(pl.start, [], 0)
  {
  }

  lemma ListedLate(pl: Plan, p: SourceId, child: SourceId) returns (batch: seq<SourceFile>)
    requires ValidPlan(pl) && HashMeansDone(pl.start.rows)
    requires p in pl.items && Grounded(pl, p) && Created(pl, p).Some?
    requires child in pl.items && pl.items[child].parentId == Some(p) && Placeable(pl, child)
    ensures Lists(pl, batch)
    ensures ChildIn(Migrate(pl.env, pl.start, batch).0, child, Created(pl, p).value)
  {
    hide Migrate, Created, RunBatch, Placeable, Ids, Distinct, Chain;
    assert BelowParent(pl, child);
    ChainListed(pl, p);
    ChainRuns(pl, p);
    batch := ListedAfter(pl, Chain(pl, p), p, child);
  }

  /** Main result. Over an acyclic batch with distinct ids, in which the same calls raise whatever the
      order, the placement is the same for every listing order if and only if no folder moves under
      its children. */
  lemma OrderIndependence(pl: Plan)
    requires ValidPlan(pl) && HashMeansDone(pl.start.rows)
    ensures OrderIndependent(pl) <==> Steady(pl)
  {
    if Steady(pl) {
      forall a, b | Lists(pl, a) && Lists(pl, b)
        ensures SamePlacement(pl, Migrate(pl.env, pl.start, a).0, Migrate(pl.env, pl.start, b).0)
      {
        SteadyIsEnough(pl, a, b);
      }
    } else {
      var p :| p in pl.items && p in pl.start.folderMap && Created(pl, p).Some? && Grounded(pl, p)
               && HasPlaceableChild(pl, p) && Created(pl, p).value != pl.start.folderMap[p];
      var child :| child in pl.items && pl.items[child].parentId == Some(p) && Placeable(pl, child);
      MovedFolder(pl, p, child);
    }
  }

  // ----- without failures ------------------------------------------------------------------

  /** Every folder of the batch that FolderMap has and under which the pass writes is created again
      under the recorded id. */
  ghost predicate NothingMoved(pl: Plan)
    requires ValidPlan(pl)
  {
    forall p <- pl.items ::
      p in pl.start.folderMap && Created(pl, p).Some? && HasPlaceableChild(pl, p) ==>
        Created(pl, p).value == pl.start.folderMap[p]
  }

  /** The item is under the destination id that FolderMap has for its parent, and at the root exactly
      if it has no parent or one that is neither a folder of the batch nor known from an earlier pass. */
  ghost predicate FollowsParent(pl: Plan, s: Pass, id: SourceId)
    requires id in pl.items
  {
    match pl.items[id].parentId
    case None => ChildIn(s, id, Root)
    case Some(p) =>
      && (p in s.folderMap <==> p in pl.start.folderMap || (p in pl.items && pl.items[p].isFolder))
      && ChildIn(s, id, if p in s.folderMap then s.folderMap[p] else Root)
  }

  ghost predicate AllFollow(pl: Plan, s: Pass) {
    forall id <- pl.items :: Placeable(pl, id) ==> FollowsParent(pl, s, id)
  }

  lemma FollowsWhenNothingMoved(pl: Plan, batch: seq<SourceFile>, id: SourceId)
    requires ValidPlan(pl) && NothingMoved(pl) && Lists(pl, batch) && pl.env.raises == {}
    requires id in pl.items && Placeable(pl, id)
    ensures FollowsParent(pl, Migrate(pl.env, pl.start, batch).0, id)
  {
    hide Migrate;
    Placement(pl, batch);
    var s := Migrate(pl.env, pl.start, batch).0;
    assert Fulfilled(pl, s.rows, id) && BelowParent(pl, id);
    NoneLost(pl, id);
    if pl.items[id].parentId.Some? {
      var p := pl.items[id].parentId.value;
      assert Lookup(s.folderMap, p) == ExpectedFolder(pl, {}, p);
      assert HasPlaceableChild(pl, p);
      if p in pl.items { NoneLost(pl, p); }
    }
  }

  predicate Moves(pl: Plan, p: SourceId)
    requires ValidPlan(pl)
  {
    p in pl.items && p in pl.start.folderMap && Created(pl, p).Some? && Created(pl, p).value != pl.start.folderMap[p]
  }

  lemma {:induction false} MovesAbove(pl: Plan, id: SourceId) returns (p: SourceId)
    requires ValidPlan(pl) && pl.env.raises == {} && id in pl.items && pl.items[id].isFolder && !Fixed(pl, id)
    ensures Moves(pl, p) && HasPlaceableChild(pl, p) && pl.rank[p] < pl.rank[id]
    decreases pl.rank[id]
  {
    p := pl.items[id].parentId.value;
    assert BelowParent(pl, id);
    assert Placeable(pl, id);
    if !Moves(pl, p) { p := MovesAbove(pl, p); }
  }

  /** Above a folder that moves over its children there is a topmost one. */
  lemma {:induction false} TopmostMove(pl: Plan, p: SourceId) returns (q: SourceId)
    requires ValidPlan(pl) && pl.env.raises == {} && Moves(pl, p) && HasPlaceableChild(pl, p)
    ensures Moves(pl, q) && HasPlaceableChild(pl, q) && Fixed(pl, q)
    decreases pl.rank[p]
  {
    q := p;
    if !Fixed(pl, p) {
      q := MovesAbove(pl, p);
      q := TopmostMove(pl, q);
    }
  }

  /** A child listed first stays behind in the recorded folder. */
  lemma StaysBehind(pl: Plan, p: SourceId, child: SourceId) returns (batch: seq<SourceFile>)
    requires ValidPlan(pl) && HashMeansDone(pl.start.rows) && Moves(pl, p) && Fixed(pl, p)
    requires child in pl.items && pl.items[child].parentId == Some(p) && Placeable(pl, child)
    ensures Lists(pl, batch) && !FollowsParent(pl, Migrate(pl.env, pl.start, batch).0, child)
  {
    hide Migrate, Lists, Created, RunBatch, Placeable, Ids, Distinct, Fixed;
    EmptyPrefix(pl);
    assert BelowParent(pl, child);
    batch := ListedAfter(pl, [], p, child);
    Fates(pl, batch);
    var s := Migrate(pl.env, pl.start, batch).0;
    assert MapsTo(pl, s.folderMap, {}, p);
  }

  /** Main result. Without failing calls, every item that is to be written ends up, in every listing order,
      under the destination id that FolderMap has for its parent after the pass, and at the root
      exactly if its parent is unknown, if and only if no folder moves over its children. */
  lemma UnderItsParent(pl: Plan)
    requires ValidPlan(pl) && HashMeansDone(pl.start.rows) && pl.env.raises == {}
    ensures (forall batch | Lists(pl, batch) :: AllFollow(pl, Migrate(pl.env, pl.start, batch).0)) <==> NothingMoved(pl)
  {
    hide Migrate, Lists, Placeable, FollowsParent, Created, Fixed;
    if NothingMoved(pl) {
      forall batch, id | Lists(pl, batch) && id in pl.items && Placeable(pl, id)
        ensures FollowsParent(pl, Migrate(pl.env, pl.start, batch).0, id)
      {
        FollowsWhenNothingMoved(pl, batch, id);
      }
    } else {
      var p :| p in pl.items && HasPlaceableChild(pl, p) && Moves(pl, p);
      var q := TopmostMove(pl, p);
      var child :| child in pl.items && pl.items[child].parentId == Some(q) && Placeable(pl, child);
      var batch := StaysBehind(pl, q, child);
      assert !AllFollow(pl, Migrate(pl.env, pl.start, batch).0);
    }
  }

  lemma {:induction false} NoneLost(pl: Plan, id: SourceId)
    requires ValidPlan(pl) && pl.env.raises == {} && id in pl.items
    ensures Home(pl, id).At?
    decreases pl.rank[id]
  {
    var p := pl.items[id].parentId;
    if p.Some? && p.value in pl.items {
      assert BelowParent(pl, id);
      NoneLost(pl, p.value);
    }
  }
}
