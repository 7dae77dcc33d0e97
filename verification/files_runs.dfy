/** Files over whole sequences of passes, interrupted or not. A pass is a sequence of calls of
    _process_file (MigrateIsTrace), so what every call keeps holds in every reachable state. */
module FilesRuns {
  import opened Wrappers
  import opened State
  import opened FilesPass
  import opened FilesAccounting

  /** A pass begins; an item is processed; or the process dies inside a call, after the write to
      the destination and before the write to the store. */
  datatype Event =
    | NewPass
    | Call(env: Env, f: SourceFile, defer: bool)
    | Torn(env: Env, f: SourceFile, defer: bool)

  function Apply(s: Pass, e: Event): Pass {
    match e
    case NewPass => s.(failed := {}, met := {})
    case Call(env, f, defer) => Process(env, s, f, defer).0
    case Torn(env, f, defer) => s.(drive := Process(env, s, f, defer).0.drive)
  }

  function After(s: Pass, events: seq<Event>): Pass {
    if events == [] then s
    else Apply(After(s, events[..|events| - 1]), events[|events| - 1])
  }

  // ----- a pass is a trace of calls --------------------------------------------------------

  ghost predicate CallsOf(events: seq<Event>, env: Env, batch: seq<SourceFile>) {
    forall e <- events :: e.Call? && e.env == env && e.f in batch
  }

  lemma {:induction false} AfterConcat(s: Pass, a: seq<Event>, b: seq<Event>)
    ensures After(s, a + b) == After(After(s, a), b)
  {
    if b == [] {
      assert a + b == a;
    } else {
      var init, e := b[..|b| - 1], b[|b| - 1];
      assert b == init + [e] && a + b == (a + init) + [e];
      hide Apply;
      AfterStep(s, a + init, e);
      AfterConcat(s, a, init);
    }
  }

  lemma AfterStep(s: Pass, events: seq<Event>, e: Event)
    ensures After(s, events + [e]) == Apply(After(s, events), e)
  {
    hide Apply;
    assert (events + [e])[..|events|] == events;
  }

  lemma TraceNothing(env: Env, s: Pass, defer: bool)
    ensures CallsOf([], env, []) && After(s, []) == RunBatch(env, s, [], defer).pass && RunBatch(env, s, [], defer).still == []
  {
  }

  lemma TraceMore(env: Env, s: Pass, init: seq<SourceFile>, f: SourceFile, defer: bool, before: seq<Event>)
    requires CallsOf(before, env, init) && After(s, before) == RunBatch(env, s, init, defer).pass
    requires forall g <- RunBatch(env, s, init, defer).still :: g in init
    ensures CallsOf(before + [Call(env, f, defer)], env, init + [f])
    ensures After(s, before + [Call(env, f, defer)]) == RunBatch(env, s, init + [f], defer).pass
    ensures forall g <- RunBatch(env, s, init + [f], defer).still :: g in init + [f]
  {
    hide RunBatch, Process, After;
    RunBatchStep(env, s, init, f, defer);
    AfterStep(s, before, Call(env, f, defer));
  }

  lemma {:induction false} SweepIsTrace(env: Env, s: Pass, batch: seq<SourceFile>, defer: bool)
    returns (events: seq<Event>)
    ensures CallsOf(events, env, batch)
    ensures After(s, events) == RunBatch(env, s, batch, defer).pass
    ensures forall f <- RunBatch(env, s, batch, defer).still :: f in batch
  {
    hide *;
    if batch == [] {
      events := [];
      TraceNothing(env, s, defer);
    } else {
      var init, f := batch[..|batch| - 1], batch[|batch| - 1];
      assert batch == init + [f];
      var before := SweepIsTrace(env, s, init, defer);
      TraceMore(env, s, init, f, defer, before);
      events := before + [Call(env, f, defer)];
    }
  }

  lemma {:induction false} SublistsDrawn(batch: seq<SourceFile>, ids: set<SourceId>)
    ensures forall f <- Without(batch, ids) :: f in batch
    ensures forall f <- ParentNotIn(batch, ids) :: f in batch
  {
    if batch != [] {
      var init, f := batch[..|batch| - 1], batch[|batch| - 1];
      assert batch == init + [f];
      SublistsDrawn(init, ids);
    }
  }

  lemma RoundIsTrace(env: Env, s: Pass, deferred: seq<SourceFile>) returns (events: seq<Event>)
    requires deferred != []
    ensures CallsOf(events, env, deferred)
    ensures After(s, events) == OneRound(env, s, deferred).pass
    ensures forall f <- OneRound(env, s, deferred).still :: f in deferred
  {
    hide RunBatch, After;
    events := SweepIsTrace(env, s, deferred, true);
    var sweep := RunBatch(env, s, deferred, true);
    if |sweep.still| == |deferred| {
      var orphans := Orphans(sweep.still);
      SublistsDrawn(sweep.still, Ids(sweep.still));
      SublistsDrawn(sweep.still, Ids(orphans));
      var second := SweepIsTrace(env, sweep.pass, orphans, false);
      AfterConcat(s, events, second);
      events := events + second;
    }
  }

  lemma {:induction false} RoundsTrace(env: Env, s: Pass, deferred: seq<SourceFile>) returns (events: seq<Event>)
    ensures CallsOf(events, env, deferred)
    ensures After(s, events) == Rounds(env, s, deferred).0
    decreases |deferred|
  {
    if deferred == [] {
      events := [];
    } else {
      RoundsStep(env, s, deferred);
      hide OneRound, Rounds, After;
      var r := OneRound(env, s, deferred);
      var first := RoundIsTrace(env, s, deferred);
      var rest := RoundsTrace(env, r.pass, r.still);
      AfterConcat(s, first, rest);
      events := first + rest;
    }
  }

  /** A pass runs calls of _process_file on its items only; an interrupted one runs the first of them. */
  lemma MigrateIsTrace(env: Env, s: Pass, items: seq<SourceFile>) returns (events: seq<Event>)
    ensures CallsOf(events, env, items)
    ensures After(s, events) == Migrate(env, s, items).0
  {
    hide RunBatch, Rounds, After;
    var first := SweepIsTrace(env, s, items, true);
    var sweep := RunBatch(env, s, items, true);
    var rest := RoundsTrace(env, sweep.pass, sweep.still);
    AfterConcat(s, first, rest);
    events := first + rest;
  }

  // ----- an item is uploaded once ----------------------------------------------------------

  /** If the event is about `id`, it treats it as a file that migrates. */
  predicate TreatsAsFile(e: Event, id: SourceId) {
    e.NewPass? || e.f.sourceId != id || (!e.f.isFolder && !e.f.skip)
  }

  predicate HasMode(e: Event, mode: Mode) {
    e.NewPass? || e.env.mode == mode
  }

  /** Passes in one mode, in which the connector classifies `id` as a file that migrates. */
  ghost predicate FileEvents(events: seq<Event>, mode: Mode, id: SourceId) {
    forall e <- events :: HasMode(e, mode) && TreatsAsFile(e, id)
  }

  function IsTorn(e: Event, id: SourceId): nat {
    if e.Torn? && e.f.sourceId == id then 1 else 0
  }

  /** The calls for `id` that died between the write and the store. */
  function TornFor(events: seq<Event>, id: SourceId): nat {
    if events == [] then 0
    else TornFor(events[..|events| - 1], id) + IsTorn(events[|events| - 1], id)
  }

  predicate Recorded(rows: Rows, id: SourceId) {
    id in rows && rows[id].destId.Some?
  }

  /** At most one upload more than the torn ones, and then the store knows the file; during the full
      passes, what the store knows is done. */
  predicate UploadedOnce(s: Pass, id: SourceId, mode: Mode, torn: nat) {
    && s.drive.uploads[id] <= torn + (if Recorded(s.rows, id) then 1 else 0)
    && (mode.Full? && Recorded(s.rows, id) ==> s.rows[id].status.Done?)
  }

  predicate KeepsDest(s: Pass, s': Pass, id: SourceId) {
    Recorded(s.rows, id) ==> Recorded(s'.rows, id) && s'.rows[id].destId == s.rows[id].destId
  }

  lemma KeepsDestTrans(s: Pass, s': Pass, s'': Pass, id: SourceId)
    requires KeepsDest(s, s', id) && KeepsDest(s', s'', id)
    ensures KeepsDest(s, s'', id)
  {
  }

  lemma AttemptKeeps(env: Env, s: Pass, f: SourceFile, defer: bool, id: SourceId)
    requires f.sourceId != id
    ensures var s' := Attempt(env, s, f, defer).0;
            SameRow(s.rows, s'.rows, id) && s'.drive.uploads[id] == s.drive.uploads[id]
  {
    hide UpToDate, ParentOf, UploadTarget, Existing;
  }

  lemma OthersKeep(s: Pass, e: Event, id: SourceId)
    requires e.NewPass? || e.f.sourceId != id
    ensures var s' := Apply(s, e);
            SameRow(s.rows, s'.rows, id) && s'.drive.uploads[id] == s.drive.uploads[id]
  {
    if !e.NewPass? { AttemptKeeps(e.env, s, e.f, e.defer, id); }
    hide Attempt;
  }

  lemma AttemptUploads(env: Env, s: Pass, f: SourceFile, defer: bool)
    requires !f.isFolder && !f.skip
    requires env.mode.Full? && Recorded(s.rows, f.sourceId) ==> s.rows[f.sourceId].status.Done?
    ensures var s' := Attempt(env, s, f, defer).0;
            && KeepsDest(s, s', f.sourceId)
            && (env.mode.Full? && Recorded(s'.rows, f.sourceId) ==> s'.rows[f.sourceId].status.Done?)
            && s'.drive.uploads[f.sourceId] == s.drive.uploads[f.sourceId]
                 + if Recorded(s'.rows, f.sourceId) && !Recorded(s.rows, f.sourceId) then 1 else 0
  {
  }

  lemma EventUploads(s: Pass, e: Event, id: SourceId, mode: Mode, torn: nat)
    requires UploadedOnce(s, id, mode, torn) && HasMode(e, mode) && TreatsAsFile(e, id)
    ensures UploadedOnce(Apply(s, e), id, mode, torn + IsTorn(e, id)) && KeepsDest(s, Apply(s, e), id)
  {
    hide Attempt;
    if e.NewPass? || e.f.sourceId != id {
      hide Process;
      OthersKeep(s, e, id);
    } else {
      AttemptUploads(e.env, s, e.f, e.defer);
    }
  }

  lemma TornStep(events: seq<Event>, e: Event, id: SourceId)
    ensures TornFor(events + [e], id) == TornFor(events, id) + IsTorn(e, id)
  {
    assert (events + [e])[..|events|] == events;
  }

  ghost predicate PhaseKept(s: Pass, events: seq<Event>, id: SourceId, mode: Mode, torn: nat) {
    UploadedOnce(After(s, events), id, mode, torn + TornFor(events, id)) && KeepsDest(s, After(s, events), id)
  }

  lemma PhaseStep(s: Pass, events: seq<Event>, e: Event, id: SourceId, mode: Mode, torn: nat)
    requires PhaseKept(s, events, id, mode, torn) && HasMode(e, mode) && TreatsAsFile(e, id)
    ensures PhaseKept(s, events + [e], id, mode, torn)
  {
    hide Apply, After, TornFor, UploadedOnce, KeepsDest, HasMode, TreatsAsFile;
    AfterStep(s, events, e);
    TornStep(events, e, id);
    EventUploads(After(s, events), e, id, mode, torn + TornFor(events, id));
    KeepsDestTrans(s, After(s, events), After(s, events + [e]), id);
  }

  lemma {:induction false} PhaseUploads(s: Pass, events: seq<Event>, id: SourceId, mode: Mode, torn: nat)
    requires UploadedOnce(s, id, mode, torn) && FileEvents(events, mode, id)
    ensures PhaseKept(s, events, id, mode, torn)
  {
    if events != [] {
      hide PhaseKept, UploadedOnce, HasMode, TreatsAsFile;
      var init, e := events[..|events| - 1], events[|events| - 1];
      assert events == init + [e];
      assert e in events;
      PhaseUploads(s, init, id, mode, torn);
      PhaseStep(s, init, e, id, mode, torn);
    }
  }

  lemma SegmentKeeps(s: Pass, events: seq<Event>, id: SourceId, mode: Mode, torn: nat, i: nat, j: nat)
    requires UploadedOnce(s, id, mode, torn) && FileEvents(events, mode, id) && i <= j <= |events|
    ensures KeepsDest(After(s, events[..i]), After(s, events[..j]), id)
  {
    assert events[..j] == events[..i] + events[i..j];
    assert forall e <- events[..i] :: e in events;
    assert forall e <- events[i..j] :: e in events;
    hide After, TornFor, UploadedOnce, KeepsDest, HasMode, TreatsAsFile;
    PhaseUploads(s, events[..i], id, mode, torn);
    PhaseUploads(After(s, events[..i]), events[i..j], id, mode, torn + TornFor(events[..i], id));
    AfterConcat(s, events[..i], events[i..j]);
  }

  /** The state after the first i events of two phases. */
  lemma TwoPhases(s: Pass, fulls: seq<Event>, deltas: seq<Event>, i: nat)
    requires i <= |fulls| + |deltas|
    ensures After(s, (fulls + deltas)[..i])
              == if i <= |fulls| then After(s, fulls[..i]) else After(After(s, fulls), deltas[..i - |fulls|])
  {
    if i <= |fulls| {
      assert (fulls + deltas)[..i] == fulls[..i];
    } else {
      assert (fulls + deltas)[..i] == fulls + deltas[..i - |fulls|];
      AfterConcat(s, fulls, deltas[..i - |fulls|]);
    }
  }

  /** Main result. Over any full passes followed by any delta passes, with any failures and passes
      interrupted anywhere, an item is uploaded as a new file at most once, plus once for every
      interruption between its upload and its row; and from the moment it is recorded, whenever
      that is, its destination never changes. */
  lemma UploadedAtMostOnce(fulls: seq<Event>, deltas: seq<Event>, s: Pass, id: SourceId)
    requires FileEvents(fulls, Full, id) && FileEvents(deltas, Delta, id)
    requires s.rows == map[] && s.drive.uploads == multiset{}
    ensures After(After(s, fulls), deltas).drive.uploads[id] <= 1 + TornFor(fulls, id) + TornFor(deltas, id)
    ensures forall i, j :: 0 <= i <= j <= |fulls + deltas| ==>
              KeepsDest(After(s, (fulls + deltas)[..i]), After(s, (fulls + deltas)[..j]), id)
  {
    hide After, TornFor;
    PhaseUploads(s, fulls, id, Full, 0);
    PhaseUploads(After(s, fulls), deltas, id, Delta, TornFor(fulls, id));
    hide KeepsDest, UploadedOnce, FileEvents;
    forall i, j | 0 <= i <= j <= |fulls + deltas|
      ensures KeepsDest(After(s, (fulls + deltas)[..i]), After(s, (fulls + deltas)[..j]), id)
    {
      TwoPhases(s, fulls, deltas, i);
      TwoPhases(s, fulls, deltas, j);
      BothSegments(fulls, deltas, s, id, i, j);
    }
  }

  lemma BothSegments(fulls: seq<Event>, deltas: seq<Event>, s: Pass, id: SourceId, i: nat, j: nat)
    requires FileEvents(fulls, Full, id) && FileEvents(deltas, Delta, id)
    requires UploadedOnce(s, id, Full, 0) && UploadedOnce(After(s, fulls), id, Delta, TornFor(fulls, id))
    requires i <= j <= |fulls| + |deltas|
    ensures KeepsDest(if i <= |fulls| then After(s, fulls[..i]) else After(After(s, fulls), deltas[..i - |fulls|]),
                      if j <= |fulls| then After(s, fulls[..j]) else After(After(s, fulls), deltas[..j - |fulls|]), id)
  {
    hide After, UploadedOnce, FileEvents, TornFor;
    var m, mid := |fulls|, After(s, fulls);
    assert fulls[..m] == fulls;
    AfterNothing(mid, deltas);
    if j <= m {
      SegmentKeeps(s, fulls, id, Full, 0, i, j);
    } else if i > m {
      SegmentKeeps(mid, deltas, id, Delta, TornFor(fulls, id), i - m, j - m);
    } else {
      SegmentKeeps(s, fulls, id, Full, 0, i, m);
      SegmentKeeps(mid, deltas, id, Delta, TornFor(fulls, id), 0, j - m);
      KeepsDestTrans(After(s, fulls[..i]), mid, After(mid, deltas[..j - m]), id);
    }
  }

  lemma AfterNothing(s: Pass, events: seq<Event>)
    ensures After(s, events[..0]) == s
  {
  }

  /** A full pass over a file that the store knows uploads it again exactly if it is not done: a
      failed delta update keeps the destination id, and only a delta pass looks at it. */
  lemma FullPassUploadsAgain(env: Env, s: Pass, f: SourceFile, defer: bool)
    requires env.mode.Full? && !f.isFolder && !f.skip && Recorded(s.rows, f.sourceId)
    requires f.sourceId in env.fetched && f.sourceId !in env.raises && ParentOf(s, f, defer).Under?
    requires !UploadRaises(env, s.drive, f.sourceId, ParentOf(s, f, defer).folder)
    ensures HasStatus(s.rows, f.sourceId, Done) <==>
            Process(env, s, f, defer).0.drive.uploads[f.sourceId] == s.drive.uploads[f.sourceId]
  {
  }

  // ----- a recorded hash is the hash of the file -------------------------------------------

  /** What the source serves is what it listed. */
  ghost predicate Honest(e: Event, digest: Bytes -> string) {
    e.Call? && e.f.contentHash.Some? && e.f.sourceId in e.env.fetched ==>
      digest(e.env.fetched[e.f.sourceId].content) == e.f.contentHash.value
  }

  /** A row that knows its file knows a file that exists. A row with a hash is done, knows its
      file, and, unless another item wrote over it, that file has the hash. */
  ghost predicate Consistent(s: Pass, id: SourceId, digest: Bytes -> string) {
    && (Recorded(s.rows, id) ==> s.rows[id].destId.value.FileIn? && s.rows[id].destId.value in s.drive.contents)
    && (id in s.rows && s.rows[id].sourceHash.Some? ==>
          && s.rows[id].status.Done? && s.rows[id].destId.Some?
          && var file := s.drive.contents[s.rows[id].destId.value];
             file.author == id ==> digest(file.content) == s.rows[id].sourceHash.value)
  }

  lemma OthersConsistent(s: Pass, env: Env, f: SourceFile, defer: bool, id: SourceId, digest: Bytes -> string)
    requires Consistent(s, id, digest) && f.sourceId != id
    ensures Consistent(Attempt(env, s, f, defer).0, id, digest)
  {
    hide ParentOf, UploadRaises, UploadTarget, UpToDate, CreateRaises;
  }

  lemma OwnConsistent(s: Pass, env: Env, f: SourceFile, defer: bool, digest: Bytes -> string)
    requires Consistent(s, f.sourceId, digest) && !f.isFolder && Honest(Call(env, f, defer), digest)
    ensures Consistent(Attempt(env, s, f, defer).0, f.sourceId, digest)
  {
    hide ParentOf, UploadRaises;
    if ParentOf(s, f, defer).Under? && f.sourceId in env.fetched {
      UploadsFile(env, s.drive, f.sourceId, ParentOf(s, f, defer).folder);
    }
    hide UploadTarget;
  }

  lemma UploadsFile(env: Env, drive: Drive, id: SourceId, folder: DriveItem)
    requires id in env.fetched
    ensures UploadTarget(env, drive, id, folder).FileIn?
  {
  }

  lemma CallConsistent(s: Pass, e: Event, id: SourceId, digest: Bytes -> string)
    requires Consistent(s, id, digest) && !e.Torn? && TreatsAsFile(e, id) && Honest(e, digest)
    ensures Consistent(Apply(s, e), id, digest)
  {
    hide Attempt;
    if e.Call? {
      if e.f.sourceId == id { OwnConsistent(s, e.env, e.f, e.defer, digest); }
      else { OthersConsistent(s, e.env, e.f, e.defer, id, digest); }
    }
  }

  /** Main result. Over any sequence of full and delta passes with any failures, a row with a hash is
      `done`, its destination exists, and holds the content with that hash unless another item
      wrote over it. */
  lemma {:induction false} HashesAreTrue(s: Pass, events: seq<Event>, id: SourceId, digest: Bytes -> string)
    requires Consistent(s, id, digest)
    requires forall e <- events :: !e.Torn? && TreatsAsFile(e, id) && Honest(e, digest)
    ensures Consistent(After(s, events), id, digest)
  {
    if events != [] {
      var init, e := events[..|events| - 1], events[|events| - 1];
      assert events == init + [e];
      assert e in events;
      hide Apply, Consistent, TreatsAsFile, Honest;
      AfterStep(s, init, e);
      hide After;
      HashesAreTrue(s, init, id, digest);
      CallConsistent(After(s, init), e, id, digest);
    }
  }

  /** Writing over a file of another item happens: two small files of one name in one folder, both
      recorded as done, and only the content of the second is left. */
  lemma SameNameOverwrites(a: Bytes, b: Bytes, rename: Rename)
    requires |a| <= SMALL_FILE_THRESHOLD && |b| <= SMALL_FILE_THRESHOLD
    ensures var env := Env(Full, map["A" := Fetched(a, "n"), "B" := Fetched(b, "n")], {}, rename, OnDrive);
            var fileA := SourceFile("A", "n", None, false, Some("ha"), false);
            var fileB := SourceFile("B", "n", None, false, Some("hb"), false);
            var s := After(Pass(map[], map[], {}, Drive(map[], {}, multiset{}), 0, multiset{}, {}),
                           [Call(env, fileA, true), Call(env, fileB, true)]);
            && HasStatus(s.rows, "A", Done) && HasStatus(s.rows, "B", Done)
            && s.drive.contents == map[FileIn(Root, "n") := File("B", b)]
  {
    var env := Env(Full, map["A" := Fetched(a, "n"), "B" := Fetched(b, "n")], {}, rename, OnDrive);
    var fileA := SourceFile("A", "n", None, false, Some("ha"), false);
    var s := Pass(map[], map[], {}, Drive(map[], {}, multiset{}), 0, multiset{}, {});
    AfterStep(s, [], Call(env, fileA, true));
    assert [] + [Call(env, fileA, true)] == [Call(env, fileA, true)];
  }

  /** And so does a rename: large file A is renamed to the name of small file B, which then replaces it. */
  lemma RenamedIsReplaced(a: Bytes, b: Bytes, other: File, rename: Rename)
    requires |a| > SMALL_FILE_THRESHOLD >= |b| && rename("n", {"n"}) == "m" && "m" != "n"
    ensures var env := Env(Full, map["A" := Fetched(a, "n"), "B" := Fetched(b, "m")], {}, rename, OnDrive);
            var fileA := SourceFile("A", "n", None, false, Some("ha"), false);
            var fileB := SourceFile("B", "m", None, false, Some("hb"), false);
            var s := After(Pass(map[], map[], {}, Drive(map[FileIn(Root, "n") := other], {}, multiset{}), 0, multiset{}, {}),
                           [Call(env, fileA, true), Call(env, fileB, true)]);
            && HasStatus(s.rows, "A", Done) && HasStatus(s.rows, "B", Done)
            && s.drive.contents == map[FileIn(Root, "n") := other, FileIn(Root, "m") := File("B", b)]
  {
    var env := Env(Full, map["A" := Fetched(a, "n"), "B" := Fetched(b, "m")], {}, rename, OnDrive);
    var fileA := SourceFile("A", "n", None, false, Some("ha"), false);
    var drive := Drive(map[FileIn(Root, "n") := other], {}, multiset{});
    var s := Pass(map[], map[], {}, drive, 0, multiset{}, {});
    assert FileIn(Root, "n").name in Taken(drive, Root);
    assert Taken(drive, Root) == {"n"};
    AfterStep(s, [], Call(env, fileA, true));
    assert [] + [Call(env, fileA, true)] == [Call(env, fileA, true)];
  }
}
