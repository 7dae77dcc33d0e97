/** The files workload itself (workloads/files_job.py): the folder index with its caches, the
    per-item step, the deferral loop and the cursor rule, proved to compute FilesPass. */
module FilesJob {
  import opened Wrappers
  import opened State
  import opened FilesPass
  import opened FilesAccounting

  type FileStore = Store<DriveItem, string>

  /** _FolderIndex: source folder to destination folder for one pass. `ids` caches FolderMap. */
  class FolderIndex {
    const store: FileStore
    var ids: map<SourceId, DriveItem>
    var failed: set<SourceId>
    var rooted: set<SourceId>
    var rootId: Option<DriveItem>

    ghost predicate Valid()
      reads this, store
    {
      && (forall id <- ids :: id in store.folders && store.folders[id] == ids[id])
      && (rootId.Some? ==> rootId.value == Root)
    }

    constructor (store: FileStore)
      ensures Valid() && this.store == store && failed == {}
    {
      this.store := store;
      ids, failed, rooted, rootId := map[], {}, {}, None;
    }

    /** A resolved None is the drive root. */
    method Resolve(parentId: Option<SourceId>) returns (resolved: bool, dest: Option<DriveItem>)
      requires Valid()
      modifies this`ids
      ensures Valid()
      ensures resolved <==> parentId.None? || parentId.value in store.folders
      ensures dest == if parentId.Some? && resolved then Some(store.folders[parentId.value]) else None
    {
      if parentId.None? {
        return true, None;
      }
      var p := parentId.value;
      if p in ids {
        return true, Some(ids[p]);
      }
      var row := store.FolderDest(p);
      if row.Some? {
        ids := ids[p := row.value];
        return true, row;
      }
      return false, None;
    }
  }

  /** The folder that an optional folder id stands for. */
  function FolderOf(dest: Option<DriveItem>): DriveItem {
    if dest.Some? then dest.value else Root
  }

  class Job {
    const store: FileStore
    const env: Env
    /** The destination drive, reached through the Graph client. */
    var drive: Drive
    ghost var calls: nat
    ghost var settled: multiset<SourceId>
    ghost var met: set<SourceId>

    constructor (store: FileStore, env: Env, drive: Drive)
      ensures this.store == store && this.env == env && this.drive == drive
      ensures calls == 0 && settled == multiset{} && met == {}
    {
      this.store, this.env, this.drive := store, env, drive;
      calls, settled, met := 0, multiset{}, {};
    }

    /** The state of the running pass. */
    ghost function Abs(folders: FolderIndex): Pass
      reads this, store, folders
    {
      Pass(store.items, store.folders, folders.failed, drive, calls, settled, met)
    }

    ghost predicate Runs(folders: FolderIndex)
      reads this, store, folders
    {
      folders.store == store && folders.Valid()
    }

    /** _parent_for: an outcome at which the caller stops, or the destination parent (None is the root). */
    method ParentFor(f: SourceFile, folders: FolderIndex, defer: bool)
      returns (stop: Option<Outcome>, parentDest: Option<DriveItem>)
      requires Runs(folders)
      modifies store`items, folders`ids, folders`rooted
      ensures Runs(folders)
      ensures match ParentOf(old(Abs(folders)), f, defer)
              case Under(folder) => stop == None && FolderOf(parentDest) == folder && Abs(folders) == old(Abs(folders))
              case ParentFailed => stop == Some(Fail) && Abs(folders) == WithFailure(old(Abs(folders)), f.sourceId, None).0
              case ParentUnknown => stop == Some(Defer) && Abs(folders) == old(Abs(folders))
    {
      var resolved, dest := folders.Resolve(f.parentId);
      if resolved {
        return None, dest;
      }
      var p := f.parentId.value;
      if p in folders.failed {
        store.UpsertItem(f.sourceId, Failed, None, None);
        return Some(Fail), None;
      }
      if defer {
        return Some(Defer), None;
      }
      if p !in folders.rooted {
        folders.rooted := folders.rooted + {p};
      }
      return None, None;
    }

    /** ensure_folder; None when a Graph call raises: the name conflict of a file does, when the drive decides. */
    method EnsureFolder(f: SourceFile, parentDest: Option<DriveItem>) returns (dest: Option<DriveItem>)
      modifies this`drive
      ensures var folder := FolderOf(parentDest);
              if CreateRaises(env, old(drive), f, folder) then dest == None && drive == old(drive)
              else dest == Some(FolderIn(folder, f.name)) && drive == MakeFolder(old(drive), dest.value)
    {
      if f.sourceId in env.raises {
        return None;
      }
      var folder := FolderIn(FolderOf(parentDest), f.name);
      if folder in drive.folders {
        return Some(folder);
      }
      if env.names.OnDrive? && FileIn(FolderOf(parentDest), f.name) in drive.contents {
        return None;
      }
      drive := MakeFolder(drive, folder);
      return Some(folder);
    }

    /** None when a small upload finds a folder at its path. */
    method UploadFile(id: SourceId, parent: DriveItem) returns (dest: Option<DriveItem>)
      requires id in env.fetched
      modifies this`drive
      ensures if UploadRaises(env, old(drive), id, parent) then dest == None && drive == old(drive)
              else dest == Some(UploadTarget(env, old(drive), id, parent))
                   && drive == Upload(old(drive), id, dest.value, env.fetched[id].content)
    {
      if UploadRaises(env, drive, id, parent) {
        return None;
      }
      dest := Some(UploadTarget(env, drive, id, parent));
      drive := Upload(drive, id, dest.value, env.fetched[id].content);
    }

    method ProcessFolderItem(f: SourceFile, folders: FolderIndex, defer: bool) returns (outcome: Outcome)
      requires Runs(folders)
      modifies this`drive, store`items, store`folders, folders`ids, folders`failed, folders`rooted
      ensures Runs(folders)
      ensures (Abs(folders), outcome) == ProcessFolder(env, old(Abs(folders)), f, ParentOf(old(Abs(folders)), f, defer))
    {
      var stop, parentDest := ParentFor(f, folders, defer);
      if stop.Some? {
        return stop.value;
      }
      var dest := EnsureFolder(f, parentDest);
      if dest.None? {
        folders.failed := folders.failed + {f.sourceId};
        store.UpsertItem(f.sourceId, Failed, None, None);
        return Fail;
      }
      folders.ids := folders.ids[f.sourceId := dest.value];
      store.UpsertFolder(f.sourceId, dest.value);
      store.UpsertItem(f.sourceId, Done, dest, f.contentHash);
      return Ok;
    }

    method ProcessFileItem(f: SourceFile, folders: FolderIndex, defer: bool) returns (outcome: Outcome)
      requires Runs(folders)
      modifies this`drive, store`items, folders`ids, folders`rooted, folders`rootId
      ensures Runs(folders)
      ensures (Abs(folders), outcome) == ProcessContent(env, old(Abs(folders)), f, ParentOf(old(Abs(folders)), f, defer))
    {
      var existing: Option<DriveItem> := None;
      if env.mode.Delta? {
        var state := store.ItemState(f.sourceId);
        existing := if state.Some? then state.value.destId else None;
      }
      var parentDest: Option<DriveItem> := None;
      if existing.None? {
        var stop;
        stop, parentDest := ParentFor(f, folders, defer);
        if stop.Some? {
          return stop.value;
        }
      }
      if f.sourceId !in env.fetched || f.sourceId in env.raises {
        store.UpsertItem(f.sourceId, Failed, existing, None);
        return Fail;
      }
      var dest := existing;
      if existing.Some? {
        drive := Replace(drive, f.sourceId, existing.value, env.fetched[f.sourceId].content);
      } else {
        if parentDest.None? {
          if folders.rootId.None? {
            folders.rootId := Some(Root);
          }
          parentDest := folders.rootId;
        }
        dest := UploadFile(f.sourceId, parentDest.value);
        if dest.None? {
          store.UpsertItem(f.sourceId, Failed, None, None);
          return Fail;
        }
      }
      store.UpsertItem(f.sourceId, Done, dest, f.contentHash);
      return Ok;
    }

    /** _process_file. */
    method ProcessFile(f: SourceFile, folders: FolderIndex, defer: bool) returns (outcome: Outcome)
      requires Runs(folders)
      modifies this`drive, store`items, store`folders, folders
      ensures Runs(folders)
      ensures (Abs(folders), outcome) == Attempt(env, old(Abs(folders)), f, defer)
    {
      hide ProcessFolder, ProcessContent, ParentOf;
      if f.isFolder {
        outcome := ProcessFolderItem(f, folders, defer);
      } else if (env.mode.Full? && store.IsDone(f.sourceId))
             || (env.mode.Delta? && store.ItemHash(f.sourceId).Some? && store.ItemHash(f.sourceId) == f.contentHash) {
        outcome := Ok;
      } else if f.skip {
        store.UpsertItem(f.sourceId, Skipped, None, None);
        outcome := Ok;
      } else {
        outcome := ProcessFileItem(f, folders, defer);
      }
    }

    /** A call of _process_file, entered in the ledgers. */
    method ProcessCounted(f: SourceFile, folders: FolderIndex, defer: bool) returns (outcome: Outcome)
      requires Runs(folders)
      modifies this, store`items, store`folders, folders
      ensures Runs(folders)
      ensures (Abs(folders), outcome) == Process(env, old(Abs(folders)), f, defer)
    {
      hide Attempt;
      ghost var s := Abs(folders);
      outcome := ProcessFile(f, folders, defer);
      calls := s.calls + 1;
      settled := if outcome == Defer then s.settled else s.settled + multiset{f.sourceId};
      met := if Meets(env, s, f, ParentOf(s, f, defer)) then s.met + {f.sourceId} else s.met;
    }

    /** The inner function _run of _migrate. */
    method Run(batch: seq<SourceFile>, folders: FolderIndex, defer: bool)
      returns (still: seq<SourceFile>, failures: nat)
      requires Runs(folders)
      modifies this, store`items, store`folders, folders
      ensures Runs(folders)
      ensures Sweep(Abs(folders), still, failures) == RunBatch(env, old(Abs(folders)), batch, defer)
    {
      still, failures := [], 0;
      ghost var s := Abs(folders);
      for i := 0 to |batch|
        invariant Runs(folders)
        invariant Sweep(Abs(folders), still, failures) == RunBatch(env, s, batch[..i], defer)
      {
        ghost var before := Sweep(Abs(folders), still, failures);
        var outcome := ProcessCounted(batch[i], folders, defer);
        if outcome == Defer {
          still := still + [batch[i]];
        } else if outcome == Fail {
          failures := failures + 1;
        }
        SweepOneMore(env, s, batch, i, defer, before, Sweep(Abs(folders), still, failures));
      }
      assert batch[..|batch|] == batch;
    }

    /** One turn of the deferral loop of _migrate. */
    method Retry(deferred: seq<SourceFile>, folders: FolderIndex)
      returns (remaining: seq<SourceFile>, failures: nat)
      requires Runs(folders) && deferred != []
      modifies this, store`items, store`folders, folders
      ensures Runs(folders)
      ensures Sweep(Abs(folders), remaining, failures) == OneRound(env, old(Abs(folders)), deferred)
    {
      hide RunBatch, Orphans, Without, Ids;
      remaining, failures := Run(deferred, folders, true);
      if |remaining| == |deferred| {
        var orphans := Orphans(remaining);
        var _, n := Run(orphans, folders, false);
        remaining, failures := Without(remaining, Ids(orphans)), failures + n;
      }
    }

    /** _migrate: one pass over the items; returns the number of failures. */
    method MigrateItems(items: seq<SourceFile>) returns (failures: nat)
      modifies this, store`items, store`folders
      ensures var start := Pass(old(store.items), old(store.folders), {}, old(drive), old(calls), old(settled), old(met));
              var (s, n) := Migrate(env, start, items);
              && failures == n
              && store.items == s.rows && store.folders == s.folderMap && drive == s.drive
              && calls == s.calls && settled == s.settled && met == s.met
    {
      hide RunBatch, OneRound;
      var folders := new FolderIndex(store);
      ghost var start := Abs(folders);
      var deferred;
      deferred, failures := Run(items, folders, true);
      while deferred != []
        invariant Runs(folders) && fresh(folders)
        invariant var rest := Rounds(env, Abs(folders), deferred);
                  Migrate(env, start, items) == (rest.0, failures + rest.1)
        decreases |deferred|
      {
        RoundsStep(env, Abs(folders), deferred);
        var n;
        deferred, n := Retry(deferred, folders);
        failures := failures + n;
      }
    }

    /** run_files: a delta without a stored cursor, or with an empty one, does nothing; every other pass runs,
        and stores a new cursor exactly if it is given one and nothing failed. */
    method RunFiles(items: seq<SourceFile>, newCursor: Option<string>)
      modifies this, store
      ensures env.mode == Delta && (old(store.cursor) == None || old(store.cursor) == Some("")) ==>
                store.items == old(store.items) && store.folders == old(store.folders)
                && drive == old(drive) && store.cursor == old(store.cursor)
      ensures env.mode == Full || (old(store.cursor) != None && old(store.cursor) != Some("")) ==>
                var start := Pass(old(store.items), old(store.folders), {}, old(drive), old(calls), old(settled), old(met));
                var (s, n) := Migrate(env, start, items);
                && store.items == s.rows && store.folders == s.folderMap && drive == s.drive
                && store.cursor == if newCursor.Some? && newCursor.value != "" && n == 0 then newCursor else old(store.cursor)
      ensures store.cursor != old(store.cursor) && Distinct(items) && HashMeansDone(old(store.items)) ==>
                forall id <- Ids(items) :: HasStatus(store.items, id, Done) || HasStatus(store.items, id, Skipped)
    {
      if env.mode == Delta && !Given(store.cursor) {
        return;
      }
      ghost var start := Pass(store.items, store.folders, {}, drive, calls, settled, met);
      var failures := MigrateItems(items);
      if Given(newCursor) && failures == 0 {
        store.SaveCursor(newCursor.value);
        if Distinct(items) && HashMeansDone(old(store.items)) {
          CleanPass(env, start, items);
        }
      }
    }
  }

  /** A cursor that is neither null nor empty. */
  predicate Given(cursor: Option<string>) {
    cursor.Some? && cursor.value != ""
  }

  lemma SweepOneMore(env: Env, s: Pass, batch: seq<SourceFile>, i: nat, defer: bool, before: Sweep, after: Sweep)
    requires i < |batch| && before == RunBatch(env, s, batch[..i], defer)
    requires after == Record(before, batch[i], Process(env, before.pass, batch[i], defer))
    ensures after == RunBatch(env, s, batch[..i + 1], defer)
  {
    hide RunBatch, Process, Record;
    var init, f := batch[..i], batch[i];
    assert batch[..i + 1] == init + [f];
    RunBatchStep(env, s, init, f, defer);
  }

  /** A pass that returns no failure left every item done or skipped. */
  lemma {:induction false} CleanPass(env: Env, s: Pass, items: seq<SourceFile>)
    requires Distinct(items) && HashMeansDone(s.rows) && Migrate(env, s, items).1 == 0
    ensures var rows := Migrate(env, s, items).0.rows;
            forall id <- Ids(items) :: HasStatus(rows, id, Done) || HasStatus(rows, id, Skipped)
  {
    hide Migrate, Ids, Distinct, HashMeansDone;
    Accounting(env, s, items);
    var rows := Migrate(env, s, items).0.rows;
    assert FailedIn(rows, Ids(items)) == {};
    forall id <- Ids(items)
      ensures HasStatus(rows, id, Done) || HasStatus(rows, id, Skipped)
    {
      assert id !in FailedIn(rows, Ids(items));
    }
  }
}
