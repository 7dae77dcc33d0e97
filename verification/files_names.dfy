/** Names on the destination drive. A folder is not created where a file has its name, and a small file
    is not uploaded where a folder has its path: such calls raise. Every pass on the drive is a pass in
    which these calls are among those known to raise, so the results on plans hold of it. */
module FilesNames {
  import opened Wrappers
  import opened State
  import opened FilesPass
  import opened FilesAccounting
  import opened FilesPlacement
  import opened FilesRuns
  import opened FilesTurns
  import opened FilesContents

  // ----- a name is held by one item --------------------------------------------------------

  /** No folder has the name of a file beside it. */
  ghost predicate OneName(drive: Drive) {
    forall folder, name :: FileIn(folder, name) in drive.contents ==> FolderIn(folder, name) !in drive.folders
  }

  /** The files that rows name are on the drive. */
  ghost predicate RowsExist(s: Pass) {
    forall id, dest :: FileOf(s, id, dest) ==> dest in s.drive.contents
  }

  lemma FreshPath(env: Env, drive: Drive, id: SourceId, folder: DriveItem)
    requires id in env.fetched && Fresh(env.rename) && !UploadRaises(env, drive, id, folder) && env.names.OnDrive?
    ensures var dest := UploadTarget(env, drive, id, folder);
            dest.FileIn? && dest.parent == folder && FolderIn(folder, dest.name) !in drive.folders
  {
    var dest := UploadTarget(env, drive, id, folder);
    var held := FolderIn(folder, dest.name);
    assert held in drive.folders ==> held.name in Taken(drive, folder);
    assert dest.name in Taken(drive, folder) ==> dest == FileIn(folder, env.fetched[id].finalName);
  }

  ghost predicate NamesGrow(drive: Drive, drive': Drive) {
    OneName(drive') && drive.contents.Keys <= drive'.contents.Keys
  }

  lemma NamesAfterFolder(env: Env, s: Pass, f: SourceFile, target: Target)
    requires env.names.OnDrive? && OneName(s.drive)
    ensures NamesGrow(s.drive, ProcessFolder(env, s, f, target).0.drive)
  {
  }

  lemma NamesAfterFile(env: Env, s: Pass, f: SourceFile, target: Target)
    requires env.names.OnDrive? && Fresh(env.rename) && OneName(s.drive) && RowsExist(s)
    ensures NamesGrow(s.drive, ProcessContent(env, s, f, target).0.drive)
  {
    hide UploadTarget, UploadRaises, Fresh;
    if target.Under? && f.sourceId in env.fetched && !UploadRaises(env, s.drive, f.sourceId, target.folder) {
      FreshPath(env, s.drive, f.sourceId, target.folder);
    }
    var existing := Existing(env, s.rows, f);
    assert existing.Some? && existing.value.FileIn? ==> FileOf(s, f.sourceId, existing.value);
  }

  lemma NamesAfterAttempt(env: Env, s: Pass, f: SourceFile, defer: bool)
    requires env.names.OnDrive? && Fresh(env.rename) && OneName(s.drive) && RowsExist(s)
    ensures var s' := Attempt(env, s, f, defer).0; NamesGrow(s.drive, s'.drive) && RowsExist(s')
  {
    NamesAfterFolder(env, s, f, ParentOf(s, f, defer));
    NamesAfterFile(env, s, f, ParentOf(s, f, defer));
    hide ParentOf, UpToDate, OneName, ProcessFolder, ProcessContent;
    var s' := Attempt(env, s, f, defer).0;
    forall id, dest | FileOf(s', id, dest) ensures dest in s'.drive.contents {
      if id != f.sourceId {
        AttemptKeeps(env, s, f, defer, id);
        assert FileOf(s, id, dest);
      } else {
        OwnFileExists(env, s, f, defer, dest);
      }
    }
  }

  lemma OwnFileExists(env: Env, s: Pass, f: SourceFile, defer: bool, dest: DriveItem)
    requires RowsExist(s) && FileOf(Attempt(env, s, f, defer).0, f.sourceId, dest)
    ensures dest in Attempt(env, s, f, defer).0.drive.contents
  {
    hide ParentOf, UploadTarget, UpToDate, UploadRaises, CreateRaises;
    assert FileOf(s, f.sourceId, dest) ==> dest in s.drive.contents;
  }

  ghost predicate DriveEvent(e: Event) {
    e.NewPass? || (e.env.names.OnDrive? && Fresh(e.env.rename))
  }

  lemma NamesAfterEvent(s: Pass, e: Event)
    requires DriveEvent(e) && OneName(s.drive) && RowsExist(s)
    ensures OneName(Apply(s, e).drive) && RowsExist(Apply(s, e))
  {
    hide Attempt, Fresh, Meets;
    var s' := Apply(s, e);
    if e.NewPass? {
      forall id, dest | FileOf(s', id, dest) ensures FileOf(s, id, dest) {}
    } else {
      NamesAfterAttempt(e.env, s, e.f, e.defer);
      var a := Attempt(e.env, s, e.f, e.defer).0;
      forall id, dest | FileOf(s', id, dest) ensures FileOf(a, id, dest) || FileOf(s, id, dest) {}
    }
  }

  /** Main result. Over any sequence of passes on the drive, with any failures and interruptions, no file and
      folder ever share a path, and every file that a row names is on the drive. */
  lemma {:induction false} NamesStayUnique(s: Pass, events: seq<Event>)
    requires OneName(s.drive) && RowsExist(s) && forall e <- events :: DriveEvent(e)
    ensures OneName(After(s, events).drive) && RowsExist(After(s, events))
  {
    if events != [] {
      hide Apply, OneName, RowsExist, DriveEvent;
      var init, e := events[..|events| - 1], events[|events| - 1];
      assert events == init + [e];
      assert e in events;
      AfterStep(s, init, e);
      NamesStayUnique(s, init);
      NamesAfterEvent(After(s, init), e);
    }
  }

  // ----- the calls that fail for a name are known afterwards -------------------------------

  ghost predicate SameButNames(env: Env, known: Env) {
    env.names.OnDrive? && known == env.(raises := known.raises, names := Known)
  }

  ghost predicate OneOf(run: Env, env: Env, known: Env) {
    run == env || run == known
  }

  /** The items whose call raises when their name is held by an item of the other kind; a large upload is
      renamed. */
  predicate Refusable(env: Env, f: SourceFile) {
    f.isFolder || (f.sourceId in env.fetched && IsSmall(env.fetched[f.sourceId]))
  }

  /** Whether the call for f is known to raise, if it met such an item. */
  predicate Told(env: Env, known: Env, f: SourceFile, met: bool) {
    f.sourceId in known.raises <==> f.sourceId in env.raises || (met && Refusable(env, f))
  }

  lemma ToldContent(env: Env, known: Env, s: Pass, f: SourceFile, target: Target)
    requires SameButNames(env, known) && !f.isFolder && !UpToDate(env, s.rows, f) && !f.skip
    requires ProcessContent(env, s, f, target).1.Defer? || Told(env, known, f, Meets(env, s, f, target))
    ensures ProcessContent(known, s, f, target) == ProcessContent(env, s, f, target)
  {
    hide UpToDate;
  }

  lemma ToldCall(env: Env, known: Env, s: Pass, f: SourceFile, defer: bool)
    requires SameButNames(env, known)
    requires Process(env, s, f, defer).1.Defer? || Told(env, known, f, Meets(env, s, f, ParentOf(s, f, defer)))
    ensures Process(known, s, f, defer) == Process(env, s, f, defer)
  {
    hide ParentOf, ProcessContent;
    if !f.isFolder && !UpToDate(env, s.rows, f) && !f.skip { ToldContent(env, known, s, f, ParentOf(s, f, defer)); }
  }

  /** Either environment defers the same items. */
  lemma SameDeferral(env: Env, known: Env, s: Pass, f: SourceFile, defer: bool)
    requires SameButNames(env, known)
    ensures Process(known, s, f, defer).1.Defer? <==> Process(env, s, f, defer).1.Defer?
  {
    hide ParentOf;
  }

  ghost predicate MetWithin(s: Pass, s': Pass, closed: set<SourceId>) {
    s.met <= s'.met <= s.met + closed
  }

  /** A call enters its own item in the ledger if it met one of the other kind, and then settles it. */
  lemma MetCall(env: Env, s: Pass, f: SourceFile, defer: bool)
    ensures var (s', o) := Process(env, s, f, defer);
            && s'.met == (if Meets(env, s, f, ParentOf(s, f, defer)) then s.met + {f.sourceId} else s.met)
            && (o.Defer? ==> s'.met == s.met)
  {
    hide ParentOf;
  }

  lemma {:induction false} MetSweep(env: Env, s: Pass, batch: seq<SourceFile>, defer: bool)
    requires Distinct(batch)
    ensures var r := RunBatch(env, s, batch, defer);
            Ids(r.still) <= Ids(batch) && MetWithin(s, r.pass, Ids(batch) - Ids(r.still))
  {
    if batch != [] {
      var init, f := batch[..|batch| - 1], batch[|batch| - 1];
      assert batch == init + [f];
      Snoc(init, f);
      RunBatchStep(env, s, init, f, defer);
      hide Process, RunBatch, Ids, Distinct, Meets;
      MetSweep(env, s, init, defer);
      MetRecord(env, s, init, RunBatch(env, s, init, defer), f, defer);
    }
  }

  lemma MetRecord(env: Env, s: Pass, init: seq<SourceFile>, before: Sweep, f: SourceFile, defer: bool)
    requires Ids(before.still) <= Ids(init) && f.sourceId !in Ids(init)
    requires MetWithin(s, before.pass, Ids(init) - Ids(before.still))
    ensures var r := Record(before, f, Process(env, before.pass, f, defer));
            Ids(r.still) <= Ids(init + [f]) && MetWithin(s, r.pass, Ids(init + [f]) - Ids(r.still))
  {
    MetCall(env, before.pass, f, defer);
    Snoc(init, f);
    Snoc(before.still, f);
    hide Process, Ids, Meets;
    var r := Record(before, f, Process(env, before.pass, f, defer));
    if r.still == before.still {
      assert Ids(init + [f]) - Ids(r.still) == Ids(init) - Ids(before.still) + {f.sourceId};
    } else {
      assert Ids(init + [f]) - Ids(r.still) == Ids(init) - Ids(before.still);
    }
  }

  lemma MetRound(env: Env, s: Pass, deferred: seq<SourceFile>)
    requires Distinct(deferred) && deferred != []
    ensures var r := OneRound(env, s, deferred);
            Distinct(r.still) && Ids(r.still) <= Ids(deferred) && MetWithin(s, r.pass, Ids(deferred) - Ids(r.still))
  {
    RoundIs(env, s, deferred);
    SweepCounts(env, s, deferred, true);
    hide *;
    MetSweep(env, s, deferred, true);
    SweepDistinct(env, s, deferred, true);
    var sweep := RunBatch(env, s, deferred, true);
    if |sweep.still| == |deferred| { MetOrphans(env, s, sweep.pass, deferred); }
  }

  lemma MetOrphans(env: Env, s: Pass, pass: Pass, deferred: seq<SourceFile>)
    requires Distinct(deferred) && deferred != [] && MetWithin(s, pass, Ids(deferred) - Ids(deferred))
    ensures var second, rest := RunBatch(env, pass, Orphans(deferred), false), Without(deferred, Ids(Orphans(deferred)));
            && Distinct(rest) && Ids(rest) <= Ids(deferred)
            && MetWithin(s, second.pass, Ids(deferred) - Ids(rest))
  {
    OrphansLeave(deferred);
    hide RunBatch, Distinct, Orphans;
    MetSweep(env, pass, Orphans(deferred), false);
    SweepCounts(env, pass, Orphans(deferred), false);
  }

  lemma {:induction false} MetRounds(env: Env, s: Pass, deferred: seq<SourceFile>)
    requires Distinct(deferred)
    ensures MetWithin(s, Rounds(env, s, deferred).0, Ids(deferred))
    decreases |deferred|
  {
    if deferred != [] {
      RoundsStep(env, s, deferred);
      hide OneRound, Rounds, Distinct, Ids;
      MetRound(env, s, deferred);
      var r := OneRound(env, s, deferred);
      MetRounds(env, r.pass, r.still);
    }
  }

  ghost predicate NotMet(s: Pass, batch: seq<SourceFile>) {
    s.met !! Ids(batch)
  }

  /** Of the items settled, those whose call failed for a name are known. */
  ghost predicate ToldAll(env: Env, known: Env, batch: seq<SourceFile>, open: set<SourceId>, met: set<SourceId>) {
    forall f <- batch :: f.sourceId !in open ==> Told(env, known, f, f.sourceId in met)
  }

  lemma {:induction false} ToldSweep(env: Env, known: Env, run: Env, s: Pass, batch: seq<SourceFile>, defer: bool)
    requires SameButNames(env, known) && OneOf(run, env, known) && Distinct(batch) && NotMet(s, batch)
    requires var r := RunBatch(run, s, batch, defer); ToldAll(env, known, batch, Ids(r.still), r.pass.met)
    ensures RunBatch(known, s, batch, defer) == RunBatch(env, s, batch, defer) == RunBatch(run, s, batch, defer)
  {
    hide *;
    if batch == [] {
      SweepNothing(env, s, defer);
      SweepNothing(known, s, defer);
      SweepNothing(run, s, defer);
    } else {
      var init, f := batch[..|batch| - 1], batch[|batch| - 1];
      assert batch == init + [f];
      ToldInit(env, known, run, s, init, f, defer);
      ToldSweep(env, known, run, s, init, defer);
      ToldOneMore(env, known, run, s, init, f, defer);
    }
  }

  lemma SweepNothing(env: Env, s: Pass, defer: bool)
    ensures RunBatch(env, s, [], defer) == Sweep(s, [], 0)
  {
  }

  lemma ToldOneMore(env: Env, known: Env, run: Env, s: Pass, init: seq<SourceFile>, f: SourceFile, defer: bool)
    requires SameButNames(env, known) && OneOf(run, env, known)
    requires RunBatch(known, s, init, defer) == RunBatch(env, s, init, defer) == RunBatch(run, s, init, defer)
    requires var pass := RunBatch(run, s, init, defer).pass;
             Process(env, pass, f, defer).1.Defer? || Told(env, known, f, Meets(env, pass, f, ParentOf(pass, f, defer)))
    ensures RunBatch(known, s, init + [f], defer) == RunBatch(env, s, init + [f], defer) == RunBatch(run, s, init + [f], defer)
  {
    hide *;
    RunBatchStep(env, s, init, f, defer);
    RunBatchStep(known, s, init, f, defer);
    RunBatchStep(run, s, init, f, defer);
    ToldOne(env, known, run, RunBatch(env, s, init, defer).pass, f, defer);
  }

  lemma ToldOne(env: Env, known: Env, run: Env, s: Pass, f: SourceFile, defer: bool)
    requires SameButNames(env, known) && OneOf(run, env, known)
    requires Process(env, s, f, defer).1.Defer? || Told(env, known, f, Meets(env, s, f, ParentOf(s, f, defer)))
    ensures Process(known, s, f, defer) == Process(env, s, f, defer) == Process(run, s, f, defer)
  {
    ToldCall(env, known, s, f, defer);
    hide Process, Meets, ParentOf, Told, SameButNames;
  }

  lemma ToldInit(env: Env, known: Env, run: Env, s: Pass, init: seq<SourceFile>, f: SourceFile, defer: bool)
    requires SameButNames(env, known) && OneOf(run, env, known)
    requires Distinct(init + [f]) && NotMet(s, init + [f])
    requires var r := RunBatch(run, s, init + [f], defer); ToldAll(env, known, init + [f], Ids(r.still), r.pass.met)
    ensures Distinct(init) && NotMet(s, init)
    ensures var before := RunBatch(run, s, init, defer);
            && ToldAll(env, known, init, Ids(before.still), before.pass.met)
            && (Process(env, before.pass, f, defer).1.Defer?
                || Told(env, known, f, Meets(env, before.pass, f, ParentOf(before.pass, f, defer))))
  {
    Snoc(init, f);
    RunBatchStep(run, s, init, f, defer);
    hide Process, RunBatch, Ids, Distinct, Meets, Told, ParentOf;
    MetSweep(run, s, init, defer);
    var before := RunBatch(run, s, init, defer);
    MetCall(run, before.pass, f, defer);
    SameMeeting(env, known, before.pass, f, defer);
    SameDeferral(env, known, before.pass, f, defer);
    Snoc(before.still, f);
    assert f in init + [f];
    forall g <- init | g.sourceId !in Ids(before.still)
      ensures Told(env, known, g, g.sourceId in before.pass.met)
    {
      IdOf(init, g);
      assert g in init + [f];
    }
  }

  lemma SameMeeting(env: Env, known: Env, s: Pass, f: SourceFile, defer: bool)
    requires SameButNames(env, known)
    ensures Meets(env, s, f, ParentOf(s, f, defer)) == Meets(known, s, f, ParentOf(s, f, defer))
  {
    hide ParentOf;
  }

  lemma OrphansDrawn(deferred: seq<SourceFile>)
    ensures forall f <- Orphans(deferred) :: f in deferred
  {
    SublistsDrawn(deferred, Ids(deferred));
  }

  /** In a round without progress: what the placement of the orphans settles is known. */
  lemma ToldOrphans(env: Env, known: Env, run: Env, s: Pass, deferred: seq<SourceFile>)
    requires Distinct(deferred) && deferred != [] && NotMet(s, deferred)
    requires var r := OneRound(run, s, deferred); ToldAll(env, known, deferred, Ids(r.still), r.pass.met)
    requires RunBatch(run, s, deferred, true).still == deferred
    ensures var pass, orphans := RunBatch(run, s, deferred, true).pass, Orphans(deferred);
            var second := RunBatch(run, pass, orphans, false);
            && Distinct(orphans) && NotMet(pass, orphans)
            && ToldAll(env, known, orphans, Ids(second.still), second.pass.met)
  {
    RoundIs(run, s, deferred);
    MetSweep(run, s, deferred, true);
    OrphansLeave(deferred);
    OrphansDrawn(deferred);
    hide OneRound, RunBatch, Orphans, Without, Ids, Distinct, Told;
    forall f <- Orphans(deferred) ensures f in deferred && f.sourceId in Ids(Orphans(deferred)) {
      IdOf(Orphans(deferred), f);
    }
  }

  lemma ToldFirst(env: Env, known: Env, run: Env, s: Pass, deferred: seq<SourceFile>)
    requires Distinct(deferred) && deferred != []
    requires var r := OneRound(run, s, deferred); ToldAll(env, known, deferred, Ids(r.still), r.pass.met)
    ensures var sweep := RunBatch(run, s, deferred, true);
            ToldAll(env, known, deferred, Ids(sweep.still), sweep.pass.met)
            && (|sweep.still| == |deferred| ==> sweep.still == deferred)
  {
    RoundIs(run, s, deferred);
    SweepCounts(run, s, deferred, true);
    hide OneRound, RunBatch, Orphans, Without, Ids, Distinct, Told;
    if RunBatch(run, s, deferred, true).still == deferred {
      forall f <- deferred ensures f.sourceId in Ids(deferred) { IdOf(deferred, f); }
    }
  }

  lemma ToldRound(env: Env, known: Env, run: Env, s: Pass, deferred: seq<SourceFile>)
    requires SameButNames(env, known) && OneOf(run, env, known)
    requires Distinct(deferred) && deferred != [] && NotMet(s, deferred)
    requires var r := OneRound(run, s, deferred); ToldAll(env, known, deferred, Ids(r.still), r.pass.met)
    ensures OneRound(known, s, deferred) == OneRound(env, s, deferred) == OneRound(run, s, deferred)
  {
    hide *;
    ToldFirst(env, known, run, s, deferred);
    ToldSweep(env, known, run, s, deferred, true);
    var sweep := RunBatch(run, s, deferred, true);
    if |sweep.still| == |deferred| {
      ToldOrphans(env, known, run, s, deferred);
      ToldSweep(env, known, run, sweep.pass, Orphans(deferred), false);
    }
    SameRound(env, known, s, deferred);
    SameRound(env, run, s, deferred);
  }

  lemma SameRound(env: Env, env': Env, s: Pass, deferred: seq<SourceFile>)
    requires deferred != [] && RunBatch(env', s, deferred, true) == RunBatch(env, s, deferred, true)
    requires var sweep := RunBatch(env, s, deferred, true);
             |sweep.still| == |deferred| ==>
               RunBatch(env', sweep.pass, Orphans(sweep.still), false) == RunBatch(env, sweep.pass, Orphans(sweep.still), false)
    ensures OneRound(env', s, deferred) == OneRound(env, s, deferred)
  {
    hide *;
    RoundIs(env, s, deferred);
    RoundIs(env', s, deferred);
  }

  lemma {:induction false} ToldRounds(env: Env, known: Env, run: Env, s: Pass, deferred: seq<SourceFile>)
    requires SameButNames(env, known) && OneOf(run, env, known)
    requires Distinct(deferred) && NotMet(s, deferred)
    requires ToldAll(env, known, deferred, {}, Rounds(run, s, deferred).0.met)
    ensures Rounds(known, s, deferred) == Rounds(env, s, deferred) == Rounds(run, s, deferred)
    decreases |deferred|
  {
    hide *;
    if deferred == [] {
      RoundsNothing(env, s);
      RoundsNothing(known, s);
      RoundsNothing(run, s);
    } else {
      ToldRest(env, known, run, s, deferred);
      ToldRound(env, known, run, s, deferred);
      var r := OneRound(run, s, deferred);
      ToldRounds(env, known, run, r.pass, r.still);
      RoundsStep(run, s, deferred);
      RoundsStep(env, s, deferred);
      RoundsStep(known, s, deferred);
    }
  }

  lemma RoundsNothing(env: Env, s: Pass)
    ensures Rounds(env, s, []) == (s, 0)
  {
  }

  lemma ToldRest(env: Env, known: Env, run: Env, s: Pass, deferred: seq<SourceFile>)
    requires Distinct(deferred) && deferred != [] && NotMet(s, deferred)
    requires ToldAll(env, known, deferred, {}, Rounds(run, s, deferred).0.met)
    ensures var r := OneRound(run, s, deferred);
            && ToldAll(env, known, deferred, Ids(r.still), r.pass.met)
            && Distinct(r.still) && NotMet(r.pass, r.still)
            && ToldAll(env, known, r.still, {}, Rounds(run, r.pass, r.still).0.met)
  {
    RoundsStep(run, s, deferred);
    MetRound(run, s, deferred);
    RoundDrawn(run, s, deferred);
    var r := OneRound(run, s, deferred);
    MetRounds(run, r.pass, r.still);
    hide OneRound, Rounds, Ids, Distinct, Told;
  }

  lemma RoundDrawn(env: Env, s: Pass, deferred: seq<SourceFile>)
    requires deferred != []
    ensures forall f <- OneRound(env, s, deferred).still :: f in deferred
  {
    hide *;
    var events := RoundIsTrace(env, s, deferred);
  }

  /** Main result. Let the calls that fail for a name on the drive be known, as the ledger of either pass
      shows them; then the pass on the drive and the pass in which they are known are the same. */
  lemma ToldPass(env: Env, known: Env, run: Env, s: Pass, batch: seq<SourceFile>)
    requires SameButNames(env, known) && OneOf(run, env, known) && Distinct(batch) && s.met == {}
    requires ToldAll(env, known, batch, {}, Migrate(run, s, batch).0.met)
    ensures Migrate(known, s, batch) == Migrate(env, s, batch)
  {
    hide *;
    ToldStart(env, known, run, s, batch);
    ToldSweep(env, known, run, s, batch, true);
    var first := RunBatch(env, s, batch, true);
    ToldRounds(env, known, run, first.pass, first.still);
    SameParts(env, known, s, batch);
  }

  lemma SameParts(env: Env, known: Env, s: Pass, batch: seq<SourceFile>)
    requires RunBatch(known, s, batch, true) == RunBatch(env, s, batch, true)
    requires var first := RunBatch(env, s, batch, true);
             Rounds(known, first.pass, first.still) == Rounds(env, first.pass, first.still)
    ensures Migrate(known, s, batch) == Migrate(env, s, batch)
  {
    hide RunBatch, Rounds;
  }

  lemma ToldStart(env: Env, known: Env, run: Env, s: Pass, batch: seq<SourceFile>)
    requires Distinct(batch) && s.met == {}
    requires ToldAll(env, known, batch, {}, Migrate(run, s, batch).0.met)
    ensures var first := RunBatch(run, s, batch, true);
            && NotMet(s, batch) && ToldAll(env, known, batch, Ids(first.still), first.pass.met)
            && Distinct(first.still) && NotMet(first.pass, first.still)
            && ToldAll(env, known, first.still, {}, Rounds(run, first.pass, first.still).0.met)
  {
    hide RunBatch, Rounds, Ids, Distinct, Told;
    var first := RunBatch(run, s, batch, true);
    MetSweep(run, s, batch, true);
    SweepDistinct(run, s, batch, true);
    MetRounds(run, first.pass, first.still);
    var events := SweepIsTrace(run, s, batch, true);
  }
}
