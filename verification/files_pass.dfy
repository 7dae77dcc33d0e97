/** What one pass of the files workload does (workloads/files_job.py), as functions on values.
    The job itself, with its caches and loops, is in FilesJob and is proved to compute these.
    Every item makes its remote calls at most once in a pass (see FilesAccounting), so a pass's
    failures are a set of items: `raises` holds those whose Graph call raises, but for the calls
    that fail because an item of the other kind holds the name, which the drive decides. */
module FilesPass {
  import opened Wrappers
  import opened State

  const SMALL_FILE_THRESHOLD: nat := 4 * 1024 * 1024

  /** A drive item: the root, or a folder or a file by its path. Names in one folder are unique up to case,
      between folders and files too; the names here are case-folded. */
  datatype DriveItem =
    | Root
    | FolderIn(parent: DriveItem, name: string)
    | FileIn(parent: DriveItem, name: string)

  datatype Mode = Full | Delta

  /** `parentId` None stands for a null or empty parent. */
  datatype SourceFile = SourceFile(
    sourceId: SourceId, name: string, parentId: Option<SourceId>,
    isFolder: bool, contentHash: Option<string>, skip: bool)

  datatype Fetched = Fetched(content: Bytes, finalName: string)

  /** The name that an upload with conflict behaviour "rename" is given, among names that are taken. */
  type Rename = (string, set<string>) -> string

  /** Which calls fail because an item of the other kind holds the name: the drive decides, or they are
      known to be among `raises`. */
  datatype Names = OnDrive | Known

  /** `fetched` is what the source serves; fetching anything else raises. */
  datatype Env = Env(mode: Mode, fetched: map<SourceId, Fetched>, raises: set<SourceId>, rename: Rename, names: Names)

  /** A file at the destination, and the item that wrote it last. */
  datatype File = File(author: SourceId, content: Bytes)

  /** The destination drive. `uploads` counts the uploads of an item as a new file. */
  datatype Drive = Drive(contents: map<DriveItem, File>, folders: set<DriveItem>, uploads: multiset<SourceId>)

  type Rows = map<SourceId, Row<DriveItem>>

  /** `failed` holds the folders whose creation raised in this pass. Three ledgers are kept for the
      proofs: the number of calls of _process_file, the items it gave a final outcome, and those
      that met an item of the other kind under their name. */
  datatype Pass = Pass(
    rows: Rows, folderMap: map<SourceId, DriveItem>, failed: set<SourceId>, drive: Drive,
    calls: nat, settled: multiset<SourceId>, met: set<SourceId>)

  datatype Outcome = Ok | Fail | Defer

  // ----- one item --------------------------------------------------------------------------

  datatype Target = Under(folder: DriveItem) | ParentFailed | ParentUnknown

  /** Where the item's parent folder stands (_FolderIndex.resolve, _parent_for). */
  function ParentOf(s: Pass, f: SourceFile, defer: bool): Target {
    match f.parentId
    case None => Under(Root)
    case Some(p) =>
      if p in s.folderMap then Under(s.folderMap[p])
      else if p in s.failed then ParentFailed
      else if defer then ParentUnknown
      else Under(Root)
  }

  predicate UpToDate(env: Env, rows: Rows, f: SourceFile) {
    f.sourceId in rows &&
    match env.mode
    case Full => rows[f.sourceId].status.Done?
    case Delta => rows[f.sourceId].sourceHash.Some? && rows[f.sourceId].sourceHash == f.contentHash
  }

  /** The file a delta pass replaces in place. */
  function Existing(env: Env, rows: Rows, f: SourceFile): Option<DriveItem> {
    if env.mode.Delta? && f.sourceId in rows then rows[f.sourceId].destId else None
  }

  function WithRow(s: Pass, id: SourceId, row: Row<DriveItem>): Pass {
    s.(rows := s.rows[id := row])
  }

  function WithFailure(s: Pass, id: SourceId, existing: Option<DriveItem>): (Pass, Outcome) {
    (WithRow(s, id, Row(Failed, existing, None)), Fail)
  }

  // ----- names on the drive ----------------------------------------------------------------

  /** ensure_folder finds no folder of the name, and its POST meets a file. */
  predicate FileHolds(drive: Drive, folder: DriveItem, name: string) {
    FileIn(folder, name) in drive.contents && FolderIn(folder, name) !in drive.folders
  }

  predicate FolderHolds(drive: Drive, folder: DriveItem, name: string) {
    FolderIn(folder, name) in drive.folders
  }

  function Taken(drive: Drive, folder: DriveItem): set<string> {
    (set d | d in drive.contents && d.FileIn? && d.parent == folder :: d.name)
    + (set d | d in drive.folders && d.FolderIn? && d.parent == folder :: d.name)
  }

  predicate IsSmall(file: Fetched) {
    |file.content| <= SMALL_FILE_THRESHOLD
  }

  /** A small upload goes by path; a large one is renamed if its name is taken. */
  function UploadTarget(env: Env, drive: Drive, id: SourceId, folder: DriveItem): DriveItem
    requires id in env.fetched
  {
    var file := env.fetched[id];
    var plain := FileIn(folder, file.finalName);
    if IsSmall(file) || (plain !in drive.contents && !FolderHolds(drive, folder, file.finalName)) then plain
    else FileIn(folder, env.rename(file.finalName, Taken(drive, folder)))
  }

  function Upload(drive: Drive, id: SourceId, dest: DriveItem, content: Bytes): Drive {
    drive.(contents := drive.contents[dest := File(id, content)], uploads := drive.uploads + multiset{id})
  }

  function Replace(drive: Drive, id: SourceId, dest: DriveItem, content: Bytes): Drive {
    drive.(contents := drive.contents[dest := File(id, content)])
  }

  function MakeFolder(drive: Drive, dest: DriveItem): Drive {
    drive.(folders := drive.folders + {dest})
  }

  predicate CreateRaises(env: Env, drive: Drive, f: SourceFile, folder: DriveItem) {
    f.sourceId in env.raises || (env.names.OnDrive? && FileHolds(drive, folder, f.name))
  }

  predicate UploadRaises(env: Env, drive: Drive, id: SourceId, folder: DriveItem)
    requires id in env.fetched
  {
    var file := env.fetched[id];
    env.names.OnDrive? && IsSmall(file) && FolderHolds(drive, folder, file.finalName)
  }

  // ----- the branches of _process_file -----------------------------------------------------

  function ProcessFolder(env: Env, s: Pass, f: SourceFile, target: Target): (Pass, Outcome) {
    match target
    case ParentFailed => WithFailure(s, f.sourceId, None)
    case ParentUnknown => (s, Defer)
    case Under(folder) =>
      if CreateRaises(env, s.drive, f, folder) then
        WithFailure(s.(failed := s.failed + {f.sourceId}), f.sourceId, None)
      else
        var dest := FolderIn(folder, f.name);
        (WithRow(s.(folderMap := s.folderMap[f.sourceId := dest], drive := MakeFolder(s.drive, dest)),
                 f.sourceId, Row(Done, Some(dest), f.contentHash)), Ok)
  }

  /** A file that exists at the destination is replaced in place, any other is uploaded. */
  function ProcessContent(env: Env, s: Pass, f: SourceFile, target: Target): (Pass, Outcome) {
    var existing := Existing(env, s.rows, f);
    if existing.None? && target.ParentFailed? then WithFailure(s, f.sourceId, None)
    else if existing.None? && target.ParentUnknown? then (s, Defer)
    else if f.sourceId !in env.fetched || f.sourceId in env.raises then
      WithFailure(s, f.sourceId, existing)
    else
      var file := env.fetched[f.sourceId];
      match existing
      case Some(dest) =>
        (WithRow(s.(drive := Replace(s.drive, f.sourceId, dest, file.content)),
                 f.sourceId, Row(Done, Some(dest), f.contentHash)), Ok)
      case None =>
        if UploadRaises(env, s.drive, f.sourceId, target.folder) then WithFailure(s, f.sourceId, None)
        else
          var dest := UploadTarget(env, s.drive, f.sourceId, target.folder);
          (WithRow(s.(drive := Upload(s.drive, f.sourceId, dest, file.content)),
                   f.sourceId, Row(Done, Some(dest), f.contentHash)), Ok)
  }

  /** The call meets an item of the other kind under the name. */
  predicate Meets(env: Env, s: Pass, f: SourceFile, target: Target) {
    target.Under?
    && if f.isFolder then FileHolds(s.drive, target.folder, f.name)
       else !UpToDate(env, s.rows, f) && !f.skip && Existing(env, s.rows, f).None?
            && f.sourceId in env.fetched && FolderHolds(s.drive, target.folder, env.fetched[f.sourceId].finalName)
  }

  function Attempt(env: Env, s: Pass, f: SourceFile, defer: bool): (Pass, Outcome) {
    if f.isFolder then ProcessFolder(env, s, f, ParentOf(s, f, defer))
    else if UpToDate(env, s.rows, f) then (s, Ok)
    else if f.skip then (WithRow(s, f.sourceId, Row(Skipped, None, None)), Ok)
    else ProcessContent(env, s, f, ParentOf(s, f, defer))
  }

  /** _process_file, with the three ledgers. */
  function Process(env: Env, s: Pass, f: SourceFile, defer: bool): (Pass, Outcome) {
    var (s', o) := Attempt(env, s, f, defer);
    var settled := if o.Defer? then s.settled else s.settled + multiset{f.sourceId};
    var met := if Meets(env, s, f, ParentOf(s, f, defer)) then s.met + {f.sourceId} else s.met;
    (s'.(calls := s.calls + 1, settled := settled, met := met), o)
  }

  // ----- the worklist ----------------------------------------------------------------------

  /** A sweep over a batch: the items it deferred, in batch order, and the failures it counted. */
  datatype Sweep = Sweep(pass: Pass, still: seq<SourceFile>, failures: nat)

  function Record(sweep: Sweep, f: SourceFile, result: (Pass, Outcome)): Sweep {
    match result.1
    case Ok => sweep.(pass := result.0)
    case Fail => sweep.(pass := result.0, failures := sweep.failures + 1)
    case Defer => sweep.(pass := result.0, still := sweep.still + [f])
  }

  /** The inner function _run of _migrate. */
  function RunBatch(env: Env, s: Pass, batch: seq<SourceFile>, defer: bool): (r: Sweep)
    ensures |r.still| <= |batch|
  {
    if batch == [] then Sweep(s, [], 0)
    else
      var n := |batch| - 1;
      var before := RunBatch(env, s, batch[..n], defer);
      Record(before, batch[n], Process(env, before.pass, batch[n], defer))
  }

  function Ids(batch: seq<SourceFile>): set<SourceId> {
    if batch == [] then {}
    else Ids(batch[..|batch| - 1]) + {batch[|batch| - 1].sourceId}
  }

  /** The items of the batch whose parent is not pending. */
  function ParentNotIn(batch: seq<SourceFile>, pending: set<SourceId>): (r: seq<SourceFile>)
    ensures Ids(r) <= Ids(batch) && |r| <= |batch|
  {
    if batch == [] then []
    else
      var f, rest := batch[|batch| - 1], ParentNotIn(batch[..|batch| - 1], pending);
      assert (rest + [f])[..|rest|] == rest;
      if f.parentId.Some? && f.parentId.value in pending then rest else rest + [f]
  }

  /** The items whose parent is not pending; all of them if there are none (a cycle). */
  function Orphans(remaining: seq<SourceFile>): (r: seq<SourceFile>)
    ensures remaining != [] ==> r != []
    ensures Ids(r) <= Ids(remaining) && |r| <= |remaining|
  {
    var orphans := ParentNotIn(remaining, Ids(remaining));
    if orphans == [] then remaining else orphans
  }

  function Without(batch: seq<SourceFile>, ids: set<SourceId>): (r: seq<SourceFile>)
    ensures Ids(r) == Ids(batch) - ids
    ensures |r| <= |batch| && (Ids(batch) * ids != {} ==> |r| < |batch|)
  {
    if batch == [] then []
    else
      var f, rest := batch[|batch| - 1], Without(batch[..|batch| - 1], ids);
      assert (rest + [f])[..|rest|] == rest;
      if f.sourceId in ids then rest else rest + [f]
  }

  /** One round of the deferral loop of _migrate: a sweep, and when it settles nothing
      a second sweep that places the orphans at the root. */
  function OneRound(env: Env, s: Pass, deferred: seq<SourceFile>): (r: Sweep)
    requires deferred != []
    ensures |r.still| < |deferred|
  {
    var sweep := RunBatch(env, s, deferred, true);
    if |sweep.still| == |deferred| then
      var orphans := Orphans(sweep.still);
      var second := RunBatch(env, sweep.pass, orphans, false);
      assert orphans[|orphans| - 1].sourceId in Ids(sweep.still) * Ids(orphans);
      Sweep(second.pass, Without(sweep.still, Ids(orphans)), sweep.failures + second.failures)
    else
      sweep
  }

  /** The deferral loop: the state after it and the failures it counted. */
  function Rounds(env: Env, s: Pass, deferred: seq<SourceFile>): (Pass, nat)
    decreases |deferred|
  {
    if deferred == [] then (s, 0)
    else
      var r := OneRound(env, s, deferred);
      var rest := Rounds(env, r.pass, r.still);
      (rest.0, r.failures + rest.1)
  }

  /** _migrate: the state after the pass and the failures it returns. */
  function Migrate(env: Env, s: Pass, items: seq<SourceFile>): (Pass, nat) {
    var first := RunBatch(env, s, items, true);
    var rest := Rounds(env, first.pass, first.still);
    (rest.0, first.failures + rest.1)
  }
}
