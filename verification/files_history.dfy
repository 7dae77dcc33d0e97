/** Contents over whole sequences of passes: as long as no pass has a clash, every file that a row names is
    its own item's, and every recorded hash is the hash of the file at the destination. */
module FilesHistory {
  import opened Wrappers
  import opened State
  import opened FilesPass
  import opened FilesAccounting
  import opened FilesPlacement
  import opened FilesRuns
  import opened FilesContents
  import opened FilesDrive
  import opened FilesDriveOrder

  /** One pass: what the source lists and serves, and the listing order. */
  datatype PassRun = PassRun(env: Env, items: map<SourceId, SourceFile>, rank: map<SourceId, nat>, batch: seq<SourceFile>)

  function Begin(s: Pass): Pass {
    s.(failed := {}, met := {})
  }

  function PlanAt(s: Pass, r: PassRun): Plan {
    Plan(r.env, Begin(s), r.items, r.rank)
  }

  function RunPasses(s: Pass, runs: seq<PassRun>): Pass {
    if runs == [] then s
    else
      var r, before := runs[|runs| - 1], RunPasses(s, runs[..|runs| - 1]);
      Migrate(r.env, Begin(before), r.batch).0
  }

  /** What the pass finds when it begins shows that no two of its items clash: with the calls that raise
      known, or foreseen on the drive. */
  ghost predicate Clear(s: Pass, r: PassRun) {
    var pl := PlanAt(s, r);
    Lists(pl, r.batch) && (ClearPlan(pl) || exists raises :: ClearOnDrive(pl, raises))
  }

  ghost predicate ClearPlan(pl: Plan) {
    ValidPlan(pl) && PlacesKnown(pl) && NoClash(pl) && NamesApart(pl)
  }

  ghost predicate ClearOnDrive(pl: Plan, raises: set<SourceId>) {
    DrivePlan(pl) && GoodDrive(pl) && Decided(pl, raises) &&
    var known := KnownPlan(pl, raises);
    ValidPlan(known) && RenamesSpareUploads(known) && NoClash(known)
  }

  ghost predicate AllClear(s: Pass, runs: seq<PassRun>) {
    runs != [] ==>
      var init, r := runs[..|runs| - 1], runs[|runs| - 1];
      AllClear(s, init) && Clear(RunPasses(s, init), r)
  }

  lemma KeepsOwn(pl: Plan, batch: seq<SourceFile>)
    requires OwnFiles(pl.start) && Lists(pl, batch) && ClearPlan(pl)
    ensures OwnFiles(Migrate(pl.env, pl.start, batch).0)
  {
    hide ValidPlan, PlacesKnown, OwnFiles, Lists, NoClash, NamesApart, Migrate;
    KeptWithoutClash(pl, batch);
  }

  lemma KeepsOwnOnDrive(pl: Plan, raises: set<SourceId>, batch: seq<SourceFile>)
    requires OwnFiles(pl.start) && Lists(pl, batch) && ClearOnDrive(pl, raises)
    ensures OwnFiles(Migrate(pl.env, pl.start, batch).0)
  {
    var known := KnownPlan(pl, raises);
    assert Steady(known) && Foreseen(pl, raises) && known.start == pl.start;
    hide ValidPlan, PlacesKnown, OwnFiles, Lists, NoClash, NamesApart, Migrate, DrivePlan, GoodDrive, Steady, Foreseen, RenamesSpareUploads;
    SmallsAreClear(pl, raises);
    SameListings(pl, raises, batch);
    ForeseenPass(pl, raises, batch);
    KeepsOwn(known, batch);
  }

  lemma BeginOwns(s: Pass)
    requires OwnFiles(s)
    ensures OwnFiles(Begin(s))
  {
    forall id, dest | FileOf(Begin(s), id, dest) ensures FileOf(s, id, dest) {}
  }

  lemma ClearPass(s: Pass, r: PassRun)
    requires OwnFiles(s) && Clear(s, r)
    ensures OwnFiles(Migrate(r.env, Begin(s), r.batch).0)
  {
    var pl := PlanAt(s, r);
    BeginOwns(s);
    hide OwnFiles, Lists, Migrate, ClearPlan, ClearOnDrive, Begin;
    if ClearPlan(pl) {
      KeepsOwn(pl, r.batch);
    } else {
      var raises :| ClearOnDrive(pl, raises);
      KeepsOwnOnDrive(pl, raises, r.batch);
    }
  }

  /** The item stays a file that migrates, and the source serves what it listed. */
  ghost predicate HonestRun(r: PassRun, id: SourceId, digest: Bytes -> string) {
    forall f <- r.batch :: TreatsAsFile(Call(r.env, f, true), id) && Honest(Call(r.env, f, true), digest)
  }

  lemma ConsistentPass(s: Pass, r: PassRun, id: SourceId, digest: Bytes -> string)
    requires Consistent(s, id, digest) && HonestRun(r, id, digest)
    ensures Consistent(Migrate(r.env, Begin(s), r.batch).0, id, digest)
  {
    var start := Begin(s);
    assert Consistent(start, id, digest);
    hide Consistent, Migrate, After;
    var events := MigrateIsTrace(r.env, start, r.batch);
    forall e <- events ensures !e.Torn? && TreatsAsFile(e, id) && Honest(e, digest) {
      var listed := Call(r.env, e.f, true);
      assert TreatsAsFile(listed, id) && Honest(listed, digest);
    }
    HashesAreTrue(start, events, id, digest);
  }

  /** A recorded hash is the hash of the file at the recorded destination. */
  ghost predicate TrueHash(s: Pass, id: SourceId, digest: Bytes -> string) {
    id in s.rows && s.rows[id].sourceHash.Some? ==>
      && s.rows[id].status.Done? && s.rows[id].destId.Some? && s.rows[id].destId.value in s.drive.contents
      && digest(s.drive.contents[s.rows[id].destId.value].content) == s.rows[id].sourceHash.value
  }

  lemma OwnHashIsTrue(s: Pass, id: SourceId, digest: Bytes -> string)
    requires OwnFiles(s) && Consistent(s, id, digest)
    ensures TrueHash(s, id, digest)
  {
    if Recorded(s.rows, id) { assert FileOf(s, id, s.rows[id].destId.value); }
  }

  lemma {:induction false} RunsStay(s: Pass, runs: seq<PassRun>, id: SourceId, digest: Bytes -> string)
    requires OwnFiles(s) && Consistent(s, id, digest)
    requires AllClear(s, runs) && forall r <- runs :: HonestRun(r, id, digest)
    ensures var s' := RunPasses(s, runs); OwnFiles(s') && Consistent(s', id, digest)
  {
    if runs != [] {
      var init, r := runs[..|runs| - 1], runs[|runs| - 1];
      assert r in runs && forall q <- init :: q in runs;
      hide OwnFiles, Consistent, Clear, HonestRun, Migrate;
      RunsStay(s, init, id, digest);
      ClearPass(RunPasses(s, init), r);
      ConsistentPass(RunPasses(s, init), r, id, digest);
    }
  }

  /** Main result. From an empty store and whatever is on the drive, over any sequence of full and delta
      passes, in any listing orders and with any failures: if no pass has a clash, every file that a
      row names was written last by its own item, and every recorded hash is the hash of the file at
      the destination. */
  lemma HashesHold(s: Pass, runs: seq<PassRun>, id: SourceId, digest: Bytes -> string)
    requires s.rows == map[]
    requires AllClear(s, runs) && forall r <- runs :: HonestRun(r, id, digest)
    ensures OwnFiles(RunPasses(s, runs)) && TrueHash(RunPasses(s, runs), id, digest)
  {
    RunsStay(s, runs, id, digest);
    OwnHashIsTrue(RunPasses(s, runs), id, digest);
  }
}
