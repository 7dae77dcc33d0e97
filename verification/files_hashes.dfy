/** Torn delta updates. A delta pass that dies between replacing a file and writing its row leaves the old hash
    on the new content; when the old hash comes back, the next pass takes the file for unchanged. The
    histories of a file for which this cannot happen are characterised exactly. */
module FilesHashes {
  import opened Wrappers
  import opened State
  import opened FilesPass
  import opened FilesAccounting
  import opened FilesRuns

  /** What the source had at each moment, and under which hash it listed it. */
  datatype Version = Version(content: Bytes, hash: Option<string>)

  type FileHistory = seq<Version>

  /** A call of a delta pass at a moment of the history; it may be torn, and it may be for another item. */
  datatype Visit = Visit(t: nat, event: Event)

  predicate About(v: Visit, id: SourceId) {
    !v.event.NewPass? && v.event.f.sourceId == id
  }

  /** The call lists the file as it was then; what the source serves, if it does, is what it listed. */
  predicate VisitOf(h: FileHistory, id: SourceId, v: Visit) {
    v.t < |h| &&
    (About(v, id) ==>
       var env, f := v.event.env, v.event.f;
       && env.mode.Delta? && !f.isFolder && !f.skip && f.contentHash == h[v.t].hash
       && (id in env.fetched ==> env.fetched[id].content == h[v.t].content))
  }

  function Run(s: Pass, visits: seq<Visit>): Pass {
    if visits == [] then s else Apply(Run(s, visits[..|visits| - 1]), visits[|visits| - 1].event)
  }

  function LastTime(start: nat, visits: seq<Visit>): nat {
    if visits == [] then start else visits[|visits| - 1].t
  }

  predicate InTime(h: FileHistory, id: SourceId, start: nat, visits: seq<Visit>) {
    visits != [] ==>
      var init, v := visits[..|visits| - 1], visits[|visits| - 1];
      InTime(h, id, start, init) && VisitOf(h, id, v) && LastTime(start, init) <= v.t
  }

  /** The store does not know the file, or it is done and the drive holds what the source had. */
  predicate Begins(s: Pass, h: FileHistory, id: SourceId, t: nat) {
    t < |h| &&
    (id in s.rows ==>
       var row := s.rows[id];
       && row.status.Done? && row.destId.Some? && row.destId.value.FileIn? && row.sourceHash == h[t].hash
       && row.destId.value in s.drive.contents && s.drive.contents[row.destId.value] == File(id, h[t].content))
  }

  /** When the call for the file succeeds, the recorded file holds what the source had then, unless
      another item wrote over it. */
  predicate Right(s: Pass, h: FileHistory, id: SourceId, v: Visit)
    requires v.t < |h|
  {
    About(v, id) && v.event.Call? && Process(v.event.env, s, v.event.f, v.event.defer).1.Ok? ==>
      var s' := Apply(s, v.event);
      && Recorded(s'.rows, id) && s'.rows[id].destId.value in s'.drive.contents
      && var file := s'.drive.contents[s'.rows[id].destId.value];
         file.author == id ==> file.content == h[v.t].content
  }

  ghost predicate Rights(h: FileHistory, id: SourceId, s: Pass, start: nat, visits: seq<Visit>, v: Visit) {
    Begins(s, h, id, start) && InTime(h, id, start, visits + [v]) ==> v.t < |h| && Right(Run(s, visits), h, id, v)
  }

  /** No sequence of deltas, torn or failing anywhere, takes a stale file for the current one. */
  ghost predicate SafeHistory(h: FileHistory, id: SourceId) {
    forall s, start: nat, visits, v :: Rights(h, id, s, start, visits, v)
  }

  predicate SameHash(h: FileHistory, i: nat, j: nat) {
    i <= j < |h| && h[i].hash.Some? && h[i].hash == h[j].hash
  }

  predicate KeptContent(h: FileHistory, i: nat, j: nat)
    requires i <= j < |h|
  {
    forall k :: i <= k <= j ==> h[k].content == h[i].content
  }

  /** A hash that comes back has meant the same content all the time in between. */
  ghost predicate SteadyHashes(h: FileHistory) {
    forall i: nat, j: nat :: SameHash(h, i, j) ==> KeptContent(h, i, j)
  }

  // ----- steady hashes are enough ----------------------------------------------------------

  predicate HeldSince(h: FileHistory, i: nat, now: nat, content: Bytes) {
    exists k :: i <= k <= now && k < |h| && h[k].content == content
  }

  /** The recorded hash is one of moment i, and the drive holds the content of i or a later moment. */
  predicate HashFrom(s: Pass, h: FileHistory, id: SourceId, now: nat, i: nat)
    requires Recorded(s.rows, id) && s.rows[id].destId.value in s.drive.contents
  {
    var file := s.drive.contents[s.rows[id].destId.value];
    && i <= now < |h| && s.rows[id].sourceHash == h[i].hash
    && (file.author == id ==> HeldSince(h, i, now, file.content))
  }

  ghost predicate Since(s: Pass, h: FileHistory, id: SourceId, now: nat) {
    id in s.rows ==>
      && (Recorded(s.rows, id) ==> s.rows[id].destId.value in s.drive.contents && s.rows[id].destId.value.FileIn?)
      && (s.rows[id].sourceHash.Some? ==>
            Recorded(s.rows, id) && exists i :: HashFrom(s, h, id, now, i))
  }

  lemma LaterSince(s: Pass, h: FileHistory, id: SourceId, now: nat, later: nat)
    requires Since(s, h, id, now) && now <= later < |h|
    ensures Since(s, h, id, later)
  {
    if id in s.rows && s.rows[id].sourceHash.Some? {
      var i :| HashFrom(s, h, id, now, i);
      assert HashFrom(s, h, id, later, i);
    }
  }

  lemma OtherWrites(env: Env, s: Pass, f: SourceFile, defer: bool, d: DriveItem)
    requires d in s.drive.contents
    ensures var s' := Attempt(env, s, f, defer).0;
            d in s'.drive.contents
            && (s'.drive.contents[d] == s.drive.contents[d] || s'.drive.contents[d].author == f.sourceId)
  {
    hide ParentOf, UploadTarget, UpToDate, UploadRaises, CreateRaises;
  }

  lemma OthersSince(s: Pass, h: FileHistory, id: SourceId, now: nat, v: Visit)
    requires Since(s, h, id, now) && !About(v, id)
    ensures Since(Apply(s, v.event), h, id, now)
  {
    OthersKeep(s, v.event, id);
    if id in s.rows && Recorded(s.rows, id) && !v.event.NewPass? {
      OtherWrites(v.event.env, s, v.event.f, v.event.defer, s.rows[id].destId.value);
    }
    var s' := Apply(s, v.event);
    hide Attempt, Meets, HeldSince;
    if id in s.rows && s.rows[id].sourceHash.Some? {
      var i :| HashFrom(s, h, id, now, i);
      assert HashFrom(s', h, id, now, i);
    }
  }

  /** What one attempt on the file leaves: what the source had, or what there was. */
  lemma OwnAttempt(s: Pass, h: FileHistory, id: SourceId, v: Visit)
    requires VisitOf(h, id, v) && About(v, id) && Since(s, h, id, v.t) && SteadyHashes(h)
    ensures var (s', o) := Attempt(v.event.env, s, v.event.f, v.event.defer);
            && Since(s', h, id, v.t)
            && (o.Ok? ==>
                  && Recorded(s'.rows, id) && s'.rows[id].destId.value in s'.drive.contents
                  && var file := s'.drive.contents[s'.rows[id].destId.value];
                     file.author == id ==> file.content == h[v.t].content)
  {
    var env, f := v.event.env, v.event.f;
    hide ParentOf, UploadRaises;
    if UpToDate(env, s.rows, f) {
      StaleNever(s, h, id, v.t);
    } else {
      OwnContent(s, h, id, v, ParentOf(s, f, v.event.defer));
    }
  }

  lemma StaleNever(s: Pass, h: FileHistory, id: SourceId, t: nat)
    requires t < |h| && Since(s, h, id, t) && SteadyHashes(h)
    requires id in s.rows && s.rows[id].sourceHash.Some? && s.rows[id].sourceHash == h[t].hash
    ensures Recorded(s.rows, id)
    ensures var file := s.drive.contents[s.rows[id].destId.value]; file.author == id ==> file.content == h[t].content
  {
    var i :| HashFrom(s, h, id, t, i);
    assert SameHash(h, i, t);
  }

  lemma OwnContent(s: Pass, h: FileHistory, id: SourceId, v: Visit, target: Target)
    requires VisitOf(h, id, v) && About(v, id) && Since(s, h, id, v.t)
    ensures var (s', o) := ProcessContent(v.event.env, s, v.event.f, target);
            && (o.Defer? ==> s' == s)
            && Since(s', h, id, v.t)
            && (o.Ok? ==>
                  && Recorded(s'.rows, id) && s'.rows[id].destId.value in s'.drive.contents
                  && var file := s'.drive.contents[s'.rows[id].destId.value];
                     file.author == id ==> file.content == h[v.t].content)
  {
    var env, f := v.event.env, v.event.f;
    if target.Under? && id in env.fetched { UploadsFile(env, s.drive, id, target.folder); }
    hide UploadTarget, UploadRaises;
    var (s', o) := ProcessContent(env, s, f, target);
    if o.Ok? {
      assert HeldSince(h, v.t, v.t, h[v.t].content);
      assert HashFrom(s', h, id, v.t, v.t);
    }
  }

  /** A torn attempt writes the drive only. */
  lemma OwnTorn(s: Pass, h: FileHistory, id: SourceId, v: Visit)
    requires VisitOf(h, id, v) && About(v, id) && Since(s, h, id, v.t)
    ensures Since(s.(drive := Attempt(v.event.env, s, v.event.f, v.event.defer).0.drive), h, id, v.t)
  {
    var env, f := v.event.env, v.event.f;
    hide ParentOf, UploadRaises, UploadTarget;
    var s' := s.(drive := Attempt(env, s, f, v.event.defer).0.drive);
    if Recorded(s.rows, id) {
      OtherWrites(env, s, f, v.event.defer, s.rows[id].destId.value);
      if s.rows[id].sourceHash.Some? {
        var i :| HashFrom(s, h, id, v.t, i);
        assert id in env.fetched ==> HeldSince(h, i, v.t, h[v.t].content);
        assert HashFrom(s', h, id, v.t, i);
      }
    }
  }

  lemma OwnStep(s: Pass, h: FileHistory, id: SourceId, v: Visit)
    requires VisitOf(h, id, v) && About(v, id) && Since(s, h, id, v.t) && SteadyHashes(h)
    ensures Since(Apply(s, v.event), h, id, v.t) && Right(s, h, id, v)
  {
    OwnAttempt(s, h, id, v);
    OwnTorn(s, h, id, v);
    var a := Attempt(v.event.env, s, v.event.f, v.event.defer).0;
    hide Attempt, Meets, VisitOf, SteadyHashes, HashFrom;
    SameSince(a, Apply(s, v.event), h, id, v.t);
    SameSince(s.(drive := a.drive), Apply(s, v.event), h, id, v.t);
  }

  lemma SameSince(s: Pass, s': Pass, h: FileHistory, id: SourceId, now: nat)
    ensures s'.rows == s.rows && s'.drive == s.drive && Since(s, h, id, now) ==> Since(s', h, id, now)
  {
    if s'.rows == s.rows && s'.drive == s.drive && Since(s, h, id, now) && id in s.rows && s.rows[id].sourceHash.Some? {
      var i :| HashFrom(s, h, id, now, i);
      assert HashFrom(s', h, id, now, i);
    }
  }

  lemma VisitStep(s: Pass, h: FileHistory, id: SourceId, now: nat, v: Visit)
    requires VisitOf(h, id, v) && now <= v.t && Since(s, h, id, now) && SteadyHashes(h)
    ensures Since(Apply(s, v.event), h, id, v.t) && Right(s, h, id, v)
  {
    hide Apply, Since, VisitOf, SteadyHashes, Attempt;
    assert v.t < |h| by { VisitInTime(h, id, v); }
    LaterSince(s, h, id, now, v.t);
    if About(v, id) { OwnStep(s, h, id, v); } else { OthersSince(s, h, id, v.t, v); }
  }

  lemma VisitInTime(h: FileHistory, id: SourceId, v: Visit)
    requires VisitOf(h, id, v)
    ensures v.t < |h|
  {
  }

  lemma RunStep(s: Pass, visits: seq<Visit>, v: Visit)
    ensures Run(s, visits + [v]) == Apply(Run(s, visits), v.event) && LastTime(0, visits + [v]) == v.t
  {
    hide Apply;
    assert (visits + [v])[..|visits|] == visits;
  }

  lemma InTimeStep(h: FileHistory, id: SourceId, start: nat, visits: seq<Visit>, v: Visit)
    requires InTime(h, id, start, visits + [v])
    ensures InTime(h, id, start, visits) && VisitOf(h, id, v) && LastTime(start, visits) <= v.t
    ensures LastTime(start, visits + [v]) == v.t
  {
    hide VisitOf;
    assert (visits + [v])[..|visits|] == visits;
  }

  lemma BeginsSince(s: Pass, h: FileHistory, id: SourceId, t: nat)
    requires Begins(s, h, id, t)
    ensures Since(s, h, id, t)
  {
    if id in s.rows {
      assert HeldSince(h, t, t, h[t].content);
      assert HashFrom(s, h, id, t, t);
    }
  }

  lemma {:induction false} SinceAlong(s: Pass, h: FileHistory, id: SourceId, start: nat, visits: seq<Visit>)
    requires Begins(s, h, id, start) && InTime(h, id, start, visits) && SteadyHashes(h)
    ensures Since(Run(s, visits), h, id, LastTime(start, visits))
  {
    if visits == [] {
      BeginsSince(s, h, id, start);
    } else {
      hide *;
      var init, v := visits[..|visits| - 1], visits[|visits| - 1];
      assert visits == init + [v];
      InTimeStep(h, id, start, init, v);
      RunStep(s, init, v);
      SinceAlong(s, h, id, start, init);
      VisitStep(Run(s, init), h, id, LastTime(start, init), v);
    }
  }

  lemma SteadyIsSafe(h: FileHistory, id: SourceId)
    requires SteadyHashes(h)
    ensures SafeHistory(h, id)
  {
    forall s, start: nat, visits, v ensures Rights(h, id, s, start, visits, v) {
      hide SteadyHashes, Begins, InTime, Run, Right, VisitOf;
      if Begins(s, h, id, start) && InTime(h, id, start, visits + [v]) {
        InTimeStep(h, id, start, visits, v);
        VisitInTime(h, id, v);
        SinceAlong(s, h, id, start, visits);
        VisitStep(Run(s, visits), h, id, LastTime(start, visits), v);
      }
    }
  }

  // ----- and necessary ---------------------------------------------------------------------

  function FileAt(h: FileHistory, id: SourceId, t: nat): SourceFile
    requires t < |h|
  {
    SourceFile(id, "n", None, false, h[t].hash, false)
  }

  function EnvAt(h: FileHistory, id: SourceId, t: nat): Env
    requires t < |h|
  {
    Env(Delta, map[id := Fetched(h[t].content, "n")], {}, (name: string, taken: set<string>) => name, OnDrive)
  }

  const PATH := FileIn(Root, "n")

  /** The file as the pass at moment t left it. */
  function SyncedAt(h: FileHistory, id: SourceId, t: nat): Pass
    requires t < |h|
  {
    Pass(map[id := Row(Done, Some(PATH), h[t].hash)], map[], {},
         Drive(map[PATH := File(id, h[t].content)], {}, multiset{}), 0, multiset{}, {})
  }

  function Reads(h: FileHistory, id: SourceId, t: nat): Visit
    requires t < |h|
  {
    Visit(t, Call(EnvAt(h, id, t), FileAt(h, id, t), true))
  }

  function Dies(h: FileHistory, id: SourceId, t: nat): Visit
    requires t < |h|
  {
    Visit(t, Torn(EnvAt(h, id, t), FileAt(h, id, t), true))
  }

  lemma InTimeMore(h: FileHistory, id: SourceId, start: nat, visits: seq<Visit>, v: Visit)
    requires InTime(h, id, start, visits) && VisitOf(h, id, v) && LastTime(start, visits) <= v.t
    ensures InTime(h, id, start, visits + [v]) && LastTime(start, visits + [v]) == v.t
  {
    hide VisitOf;
    assert (visits + [v])[..|visits|] == visits;
  }

  /** One hash for two contents: the second is taken for the first. */
  lemma StaleSkips(h: FileHistory, id: SourceId, i: nat, j: nat)
    requires SameHash(h, i, j) && h[i].content != h[j].content
    ensures !SafeHistory(h, id)
  {
    var s, v := SyncedAt(h, id, i), Reads(h, id, j);
    assert Begins(s, h, id, i);
    InTimeMore(h, id, i, [], v);
    assert Run(s, []) == s;
    assert !Right(s, h, id, v);
    assert !Rights(h, id, s, i, [], v);
  }

  /** A torn update to another content, and back to the first. */
  lemma TornAndBack(h: FileHistory, id: SourceId, i: nat, k: nat, j: nat)
    requires SameHash(h, i, j) && i <= k <= j && h[k].content != h[j].content && h[k].hash != h[i].hash
    ensures !SafeHistory(h, id)
  {
    var s, torn, v := SyncedAt(h, id, i), Dies(h, id, k), Reads(h, id, j);
    assert Begins(s, h, id, i);
    InTimeMore(h, id, i, [], torn);
    InTimeMore(h, id, i, [] + [torn], v);
    RunStep(s, [], torn);
    assert Run(s, []) == s;
    var after := Run(s, [] + [torn]);
    assert after == s.(drive := s.drive.(contents := map[PATH := File(id, h[k].content)]));
    assert !Right(after, h, id, v);
    assert !Rights(h, id, s, i, [] + [torn], v);
  }

  lemma UnsteadyIsUnsafe(h: FileHistory, id: SourceId)
    requires !SteadyHashes(h)
    ensures !SafeHistory(h, id)
  {
    var i: nat, j: nat :| SameHash(h, i, j) && !KeptContent(h, i, j);
    var k :| i <= k <= j && h[k].content != h[i].content;
    hide SafeHistory;
    if h[i].content != h[j].content {
      StaleSkips(h, id, i, j);
    } else if h[k].hash == h[i].hash {
      StaleSkips(h, id, i, k);
    } else {
      TornAndBack(h, id, i, k, j);
    }
  }

  /** Main result. Deltas that may fail or die anywhere never take a stale file for the current one if and
      only if a hash that comes back has meant the same content all the time in between. */
  lemma HashesDecide(h: FileHistory, id: SourceId)
    ensures SafeHistory(h, id) <==> SteadyHashes(h)
  {
    hide *;
    if SteadyHashes(h) { SteadyIsSafe(h, id); } else { UnsteadyIsUnsafe(h, id); }
  }
}
