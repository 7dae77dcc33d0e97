/** The contacts mirror. The source is a history of snapshots, a cursor names one of them. After a
    failure-free full pass on an empty destination, and any delta passes whatever fails in them,
    each failure-free delta leaves the destination a copy of the snapshot its cursor names. */
module ContactsMirror {
  import opened Wrappers
  import opened State
  import opened ContactsPass

  datatype Version = Version(body: string, hash: string)

  type Snapshot = map<SourceId, Version>

  type History = seq<Snapshot>

  function VersionAt(h: History, k: nat, id: SourceId): Option<Version>
    requires k < |h|
  {
    if id in h[k] then Some(h[k][id]) else None
  }

  /** The contact changed, appeared or went after snapshot `a` and up to snapshot `b`. */
  predicate Touched(h: History, id: SourceId, a: nat, b: nat)
    requires a <= b < |h|
  {
    a < b && (VersionAt(h, b, id) != VersionAt(h, b - 1, id) || Touched(h, id, a, b - 1))
  }

  lemma {:induction false} TouchedSplit(h: History, id: SourceId, a: nat, b: nat, c: nat)
    requires a <= b <= c < |h|
    ensures Touched(h, id, a, c) <==> Touched(h, id, a, b) || Touched(h, id, b, c)
    ensures !Touched(h, id, b, c) ==> VersionAt(h, b, id) == VersionAt(h, c, id)
  {
    if b < c { TouchedSplit(h, id, a, b, c - 1); }
  }

  /** The contact has the same change marker, not an empty one, in both snapshots. */
  predicate SameMarker(h: History, id: SourceId, i: nat, j: nat) {
    i <= j < |h| && id in h[i] && id in h[j] && h[i][id].hash == h[j][id].hash && h[i][id].hash != ""
  }

  /** From one snapshot to the other the contact stays, with the same body. */
  predicate KeptBetween(h: History, id: SourceId, i: nat, j: nat)
    requires i <= j < |h| && id in h[i]
  {
    forall k :: i <= k <= j ==> id in h[k] && h[k][id].body == h[i][id].body
  }

  /** A marker that is used again has meant the same body all the time in between. An etag, which is
      never used again after a change, is one; so is one that only the body decides, if no body comes
      back after a change. */
  ghost predicate SteadyMarkers(h: History) {
    forall id: SourceId, i: nat, j: nat :: SameMarker(h, id, i, j) ==> KeptBetween(h, id, i, j)
  }

  // ----- the destination against a snapshot ------------------------------------------------

  function OwnCopies(w: World, id: SourceId): map<nat, Copy> {
    map dest | dest in w.live && w.live[dest].owner == id :: w.live[dest]
  }

  /** Exactly one live copy, the recorded one, with the body of the snapshot; none if the snapshot
      does not have the contact. */
  predicate Synced(w: World, snap: Snapshot, id: SourceId) {
    if id in snap then
      DestOf(w.rows, id).Some? && OwnCopies(w, id) == map[DestOf(w.rows, id).value := Copy(id, snap[id].body)]
    else OwnCopies(w, id) == map[]
  }

  ghost predicate Mirror(w: World, snap: Snapshot) {
    forall id: SourceId :: Synced(w, snap, id)
  }

  /** The connector reports what the snapshot has. */
  predicate Accurate(snap: Snapshot, c: Contact) {
    if c.deleted then c.sourceId !in snap
    else c.sourceId in snap && snap[c.sourceId] == Version(c.body, c.hash)
  }

  /** The store and the destination seen by one contact. */
  predicate SameFor(w: World, w': World, id: SourceId) {
    && (id in w.rows <==> id in w'.rows) && (id in w.rows ==> w.rows[id] == w'.rows[id])
    && OwnCopies(w, id) == OwnCopies(w', id)
  }

  /** What holds of the destination ids as long as no create is torn. */
  ghost predicate Sound(w: World) {
    DestIdsOwned(w) && forall dest <- w.live :: DestOf(w.rows, w.live[dest].owner) == Some(dest)
  }

  lemma MigrateSound(w: World, c: Contact, call: Call)
    requires Sound(w) && (call.DiesAfter? ==> DestOf(w.rows, c.sourceId).Some?)
    ensures Sound(Migrate(w, c, call).0)
  {
    MigrateOwned(w, c, call);
  }

  lemma TombstoneSound(w: World, id: SourceId, call: Call)
    requires Sound(w)
    ensures Sound(Tombstone(w, id, call).0)
  {
  }

  lemma StepSound(mode: Mode, w: World, item: Item)
    requires Sound(w) && !TornCreate(mode, w, item)
    ensures Sound(Step(mode, w, item).0)
  {
    hide Migrate, Tombstone, Sound;
    if !item.call.DiesBefore? {
      if item.contact.deleted { TombstoneSound(w, item.contact.sourceId, item.call); }
      else if !Unchanged(mode, w.rows, item.contact) { MigrateSound(w, item.contact, item.call); }
    }
  }

  /** A step is about its own contact only. */
  lemma StepOthers(mode: Mode, w: World, item: Item, id: SourceId)
    requires Sound(w) && item.contact.sourceId != id
    ensures SameFor(w, Step(mode, w, item).0, id)
  {
    TombstoneOthers(w, item.contact.sourceId, item.call, id);
    MigrateOthers(w, item.contact, item.call, id);
    hide Tombstone, Migrate, Sound, Unchanged;
  }

  lemma TombstoneOthers(w: World, own: SourceId, call: Call, id: SourceId)
    requires Sound(w) && own != id
    ensures SameFor(w, Tombstone(w, own, call).0, id)
  {
  }

  lemma MigrateOthers(w: World, c: Contact, call: Call, id: SourceId)
    requires Sound(w) && c.sourceId != id
    ensures SameFor(w, Migrate(w, c, call).0, id)
  {
  }

  /** The only live copy is the recorded one. */
  lemma OneCopy(w: World, id: SourceId)
    requires Sound(w)
    ensures match DestOf(w.rows, id)
            case None => OwnCopies(w, id) == map[]
            case Some(dest) => OwnCopies(w, id) == if dest in w.live then map[dest := w.live[dest]] else map[]
  {
    var own := OwnCopies(w, id);
    forall dest <- own ensures DestOf(w.rows, id) == Some(dest) {
      assert w.live[dest].owner == id;
    }
  }

  /** A step that ends well leaves its contact synced, unless it found the contact unchanged; and no
      accurate step unsyncs its contact. */
  lemma OwnStep(mode: Mode, w: World, item: Item, snap: Snapshot)
    requires Sound(w) && Accurate(snap, item.contact) && !TornCreate(mode, w, item)
    ensures var (w', r) := Step(mode, w, item);
            var id := item.contact.sourceId;
            && (r.Fine? && !(Unchanged(mode, w.rows, item.contact) && !item.contact.deleted) ==>
                  Synced(w', snap, id) && (id in snap ==> IsDone(w'.rows, id)))
            && (Synced(w, snap, id) ==> Synced(w', snap, id))
  {
    StepSound(mode, w, item);
    OneCopy(w, item.contact.sourceId);
    OneCopy(Step(mode, w, item).0, item.contact.sourceId);
    hide Sound, OwnCopies;
  }

  // ----- what delta passes keep ------------------------------------------------------------

  /** The hash of a row was the contact's marker in some snapshot read before. */
  ghost predicate HashKnown(w: World, h: History, now: nat, id: SourceId)
    requires now < |h|
  {
    id in w.rows && w.rows[id].sourceHash.Some? ==>
      w.rows[id].sourceHash.value != "" &&
      exists k: nat :: k <= now && id in h[k] && h[k][id].hash == w.rows[id].sourceHash.value
  }

  /** A done row whose hash is the contact's marker, now or in a snapshot still to come, stands for a
      synced contact. */
  ghost predicate MarkerSynced(w: World, h: History, now: nat, id: SourceId) {
    forall m: nat :: now <= m < |h| && id in h[m] && IsDone(w.rows, id) && HashOf(w.rows, id) == Some(h[m][id].hash) ==>
                       Synced(w, h[m], id)
  }

  ghost predicate TracksItem(w: World, h: History, cursor: nat, now: nat, id: SourceId)
    requires cursor <= now < |h|
  {
    && (!Touched(h, id, cursor, now) ==> Synced(w, h[now], id))
    && HashKnown(w, h, now, id)
    && MarkerSynced(w, h, now, id)
  }

  /** What holds between passes: `cursor` is the stored cursor, `now` the snapshot read last. */
  ghost predicate Tracks(w: World, h: History, cursor: nat, now: nat)
    requires cursor <= now < |h|
  {
    Sound(w) && forall id: SourceId :: TracksItem(w, h, cursor, now, id)
  }

  lemma SyncedBySame(w: World, w': World, snap: Snapshot, id: SourceId)
    requires SameFor(w, w', id)
    ensures Synced(w, snap, id) <==> Synced(w', snap, id)
  {
  }

  lemma MarkersBySame(w: World, w': World, h: History, now: nat, id: SourceId)
    requires SameFor(w, w', id) && MarkerSynced(w, h, now, id)
    ensures MarkerSynced(w', h, now, id)
  {
    hide Synced;
    forall m: nat | now <= m < |h| { SyncedBySame(w, w', h[m], id); }
  }

  /** A contact that is synced with one snapshot is synced with every one that has it alike. */
  lemma SyncedAlike(w: World, h: History, now: nat, m: nat, id: SourceId)
    requires now <= m < |h| && id in h[now] && id in h[m] && h[m][id].body == h[now][id].body && Synced(w, h[now], id)
    ensures Synced(w, h[m], id)
  {
  }

  /** What a torn update leaves of its contact: it is in the snapshot and synced, or it is in neither. */
  predicate Lives(w: World, snap: Snapshot, id: SourceId) {
    id in snap ==> Synced(w, snap, id)
  }

  /** What an accurate step leaves of its contact if its row is done afterwards: the row it had, or the
      marker of the snapshot and a synced contact. */
  lemma OwnRow(w: World, item: Item, snap: Snapshot)
    requires Sound(w) && Accurate(snap, item.contact) && !TornCreate(Delta, w, item)
    ensures var (w', r) := Step(Delta, w, item);
            var id := item.contact.sourceId;
            IsDone(w'.rows, id) ==>
              || (id in snap && HashOf(w'.rows, id) == Marker(snap[id].hash) && Synced(w', snap, id))
              || (IsDone(w.rows, id) && HashOf(w'.rows, id) == HashOf(w.rows, id)
                  && ((OwnCopies(w', id) == OwnCopies(w, id) && DestOf(w'.rows, id) == DestOf(w.rows, id))
                      || Lives(w', snap, id)))
  {
    StepSound(Delta, w, item);
    OneCopy(w, item.contact.sourceId);
    OneCopy(Step(Delta, w, item).0, item.contact.sourceId);
    hide Sound, OwnCopies;
  }

  lemma OwnMarker(w: World, h: History, now: nat, item: Item)
    requires now < |h| && Sound(w) && SteadyMarkers(h) && Accurate(h[now], item.contact) && !TornCreate(Delta, w, item)
    requires HashKnown(w, h, now, item.contact.sourceId) && MarkerSynced(w, h, now, item.contact.sourceId)
    ensures MarkerSynced(Step(Delta, w, item).0, h, now, item.contact.sourceId)
  {
    var id, w' := item.contact.sourceId, Step(Delta, w, item).0;
    OwnRow(w, item, h[now]);
    hide Step, Sound, TornCreate, Accurate;
    forall m: nat | now <= m < |h| && id in h[m] && IsDone(w'.rows, id) && HashOf(w'.rows, id) == Some(h[m][id].hash)
      ensures Synced(w', h[m], id)
    {
      if id in h[now] && HashOf(w'.rows, id) == Marker(h[now][id].hash) && Synced(w', h[now], id) {
        assert SameMarker(h, id, now, m);
        SyncedAlike(w', h, now, m, id);
      } else if OwnCopies(w', id) == OwnCopies(w, id) && DestOf(w'.rows, id) == DestOf(w.rows, id) {
        assert Synced(w, h[m], id);
      } else {
        var k: nat :| k <= now && id in h[k] && h[k][id].hash == w.rows[id].sourceHash.value;
        assert SameMarker(h, id, k, m);
        assert KeptBetween(h, id, k, m);
        SyncedAlike(w', h, now, m, id);
      }
    }
  }

  lemma OwnTracks(w: World, h: History, cursor: nat, now: nat, item: Item)
    requires SteadyMarkers(h)
    requires cursor <= now < |h| && Sound(w) && TracksItem(w, h, cursor, now, item.contact.sourceId)
    requires Accurate(h[now], item.contact) && !TornCreate(Delta, w, item)
    ensures var (w', r) := Step(Delta, w, item);
            && TracksItem(w', h, cursor, now, item.contact.sourceId)
            && (r.Fine? ==> Synced(w', h[now], item.contact.sourceId))
  {
    OwnStep(Delta, w, item, h[now]);
    OwnMarker(w, h, now, item);
    hide Sound, Synced, Touched, SteadyMarkers;
    assert MarkerSynced(w, h, now, item.contact.sourceId);
  }

  lemma StepTracks(w: World, h: History, cursor: nat, now: nat, item: Item)
    requires SteadyMarkers(h)
    requires cursor <= now < |h| && Tracks(w, h, cursor, now)
    requires Accurate(h[now], item.contact) && !TornCreate(Delta, w, item)
    ensures var (w', r) := Step(Delta, w, item);
            && Tracks(w', h, cursor, now)
            && (r.Fine? ==> Synced(w', h[now], item.contact.sourceId))
            && (forall id: SourceId :: Synced(w, h[now], id) ==> Synced(w', h[now], id))
  {
    StepSound(Delta, w, item);
    OwnTracks(w, h, cursor, now, item);
    OwnStep(Delta, w, item, h[now]);
    var w' := Step(Delta, w, item).0;
    forall id: SourceId
      ensures TracksItem(w', h, cursor, now, id)
      ensures Synced(w, h[now], id) ==> Synced(w', h[now], id)
    {
      hide Sound, Step, Synced, MarkerSynced, Touched, SteadyMarkers;
      if id != item.contact.sourceId {
        StepOthers(Delta, w, item, id);
        SyncedBySame(w, w', h[now], id);
        assert TracksItem(w, h, cursor, now, id);
        MarkersBySame(w, w', h, now, id);
      }
    }
  }

  /** The next pass reads a later snapshot. */
  lemma TracksLater(w: World, h: History, cursor: nat, now: nat, later: nat)
    requires cursor <= now <= later < |h| && Tracks(w, h, cursor, now)
    ensures Tracks(w, h, cursor, later)
  {
    forall id: SourceId ensures TracksItem(w, h, cursor, later, id) {
      hide Sound, Touched, OwnCopies;
      assert TracksItem(w, h, cursor, now, id);
      TouchedSplit(h, id, cursor, now, later);
    }
  }

  // ----- a pass ----------------------------------------------------------------------------

  /** No create of the pass is torn from its row. */
  predicate NoTornCreate(mode: Mode, w: World, feed: seq<Item>) {
    feed != [] ==>
      var init, item := feed[..|feed| - 1], feed[|feed| - 1];
      var p := RunFeed(mode, w, init);
      NoTornCreate(mode, w, init) && (p.died || !TornCreate(mode, p.world, item))
  }

  ghost predicate FeedTracks(w: World, h: History, cursor: nat, now: nat, feed: seq<Item>)
    requires cursor <= now < |h|
  {
    var p := RunFeed(Delta, w, feed);
    && Tracks(p.world, h, cursor, now)
    && (Clean(p) ==> forall item <- feed :: Synced(p.world, h[now], item.contact.sourceId))
  }

  lemma FeedTracksStep(w: World, h: History, cursor: nat, now: nat, feed: seq<Item>, item: Item)
    requires SteadyMarkers(h)
    requires cursor <= now < |h| && FeedTracks(w, h, cursor, now, feed) && Accurate(h[now], item.contact)
    requires var p := RunFeed(Delta, w, feed); p.died || !TornCreate(Delta, p.world, item)
    ensures FeedTracks(w, h, cursor, now, feed + [item])
  {
    RunFeedStep(Delta, w, feed, item);
    hide RunFeed, Step, Tracks, Synced, TornCreate, Accurate;
    var p := RunFeed(Delta, w, feed);
    if !p.died {
      StepTracks(p.world, h, cursor, now, item);
      AdvanceClean(Delta, p, item);
    }
  }

  lemma AdvanceClean(mode: Mode, p: Progress, item: Item)
    ensures Clean(Advance(mode, p, item)) ==> Clean(p) && Step(mode, p.world, item).1.Fine?
  {
  }

  lemma {:induction false} DeltaTracks(w: World, h: History, cursor: nat, now: nat, feed: seq<Item>)
    requires SteadyMarkers(h)
    requires cursor <= now < |h| && Tracks(w, h, cursor, now) && NoTornCreate(Delta, w, feed)
    requires forall item <- feed :: Accurate(h[now], item.contact)
    ensures FeedTracks(w, h, cursor, now, feed)
  {
    if feed != [] {
      hide FeedTracks, Tracks, Accurate, TornCreate, RunFeed;
      var init, item := feed[..|feed| - 1], feed[|feed| - 1];
      assert feed == init + [item];
      assert item in feed;
      DeltaTracks(w, h, cursor, now, init);
      FeedTracksStep(w, h, cursor, now, init, item);
    }
  }

  /** The connector's contract for a delta: everything touched since the cursor, as it is now. */
  ghost predicate DeltaFeed(h: History, cursor: nat, now: nat, feed: seq<Item>)
    requires cursor <= now < |h|
  {
    && (forall item <- feed :: Accurate(h[now], item.contact))
    && (forall id: SourceId :: Touched(h, id, cursor, now) ==> exists item <- feed :: item.contact.sourceId == id)
  }

  lemma CleanDeltaMirrors(w: World, h: History, cursor: nat, now: nat, feed: seq<Item>)
    requires SteadyMarkers(h)
    requires cursor <= now < |h| && Tracks(w, h, cursor, now) && NoTornCreate(Delta, w, feed)
    requires DeltaFeed(h, cursor, now, feed) && Clean(RunFeed(Delta, w, feed))
    ensures Mirror(RunFeed(Delta, w, feed).world, h[now]) && Tracks(RunFeed(Delta, w, feed).world, h, now, now)
  {
    DeltaTracks(w, h, cursor, now, feed);
    hide RunFeed, Synced, Sound, HashKnown, MarkerSynced, Accurate;
    var w' := RunFeed(Delta, w, feed).world;
    forall id: SourceId ensures Synced(w', h[now], id) {
      assert TracksItem(w', h, cursor, now, id);
      if Touched(h, id, cursor, now) {
        var item :| item in feed && item.contact.sourceId == id;
      }
    }
    forall id: SourceId ensures TracksItem(w', h, now, now, id) {
      assert TracksItem(w', h, cursor, now, id);
    }
  }

  // ----- sequences of delta passes ---------------------------------------------------------

  /** A delta pass that reads snapshot `now`. */
  datatype Run = Run(now: nat, feed: seq<Item>)

  /** The migration: the world, the stored cursor and the snapshot read last. */
  datatype System = System(world: World, cursor: nat, now: nat)

  /** A delta pass of run_contacts: the cursor moves only if nothing failed. */
  function DeltaRun(s: System, run: Run): System {
    var p := RunFeed(Delta, s.world, run.feed);
    System(p.world, if Clean(p) then run.now else s.cursor, run.now)
  }

  function DeltaRuns(s: System, runs: seq<Run>): System {
    if runs == [] then s else DeltaRun(DeltaRuns(s, runs[..|runs| - 1]), runs[|runs| - 1])
  }

  ghost predicate Legal(h: History, s: System, run: Run) {
    && s.cursor <= s.now <= run.now < |h|
    && DeltaFeed(h, s.cursor, run.now, run.feed)
    && NoTornCreate(Delta, s.world, run.feed)
  }

  ghost predicate LegalRuns(h: History, s: System, runs: seq<Run>) {
    runs != [] ==>
      var init, run := runs[..|runs| - 1], runs[|runs| - 1];
      LegalRuns(h, s, init) && Legal(h, DeltaRuns(s, init), run)
  }

  ghost predicate Follows(h: History, s: System) {
    s.cursor <= s.now < |h| && (SteadyMarkers(h) ==> Tracks(s.world, h, s.cursor, s.now))
  }

  lemma RunFollows(h: History, s: System, run: Run)
    requires SteadyMarkers(h) && Follows(h, s) && Legal(h, s, run)
    ensures Follows(h, DeltaRun(s, run))
    ensures Clean(RunFeed(Delta, s.world, run.feed)) ==> Mirror(DeltaRun(s, run).world, h[DeltaRun(s, run).cursor])
  {
    TracksLater(s.world, h, s.cursor, s.now, run.now);
    hide Tracks, Mirror, RunFeed, SteadyMarkers;
    if Clean(RunFeed(Delta, s.world, run.feed)) {
      CleanDeltaMirrors(s.world, h, s.cursor, run.now, run.feed);
    } else {
      DeltaTracks(s.world, h, s.cursor, run.now, run.feed);
    }
  }

  lemma {:induction false} RunsFollow(h: History, s: System, runs: seq<Run>)
    requires SteadyMarkers(h) && Follows(h, s) && LegalRuns(h, s, runs)
    ensures Follows(h, DeltaRuns(s, runs))
  {
    if runs != [] {
      hide Follows, Legal, SteadyMarkers, DeltaRun;
      var init, run := runs[..|runs| - 1], runs[|runs| - 1];
      RunsFollow(h, s, init);
      RunFollows(h, DeltaRuns(s, init), run);
    }
  }

  /** Main result. From a mirror of the snapshot at the cursor, over any delta passes in which items
      fail and the process dies anywhere but between a create and its row, every failure-free
      delta leaves exactly one live copy of each contact of the snapshot that the cursor then
      names, with the body of that snapshot, and no copy of any other contact. */
  lemma DeltasMirror(h: History, s: System, runs: seq<Run>, last: Run)
    requires SteadyMarkers(h) && Follows(h, s)
    requires LegalRuns(h, s, runs) && Legal(h, DeltaRuns(s, runs), last)
    requires Clean(RunFeed(Delta, DeltaRuns(s, runs).world, last.feed))
    ensures var end := DeltaRun(DeltaRuns(s, runs), last);
            end.cursor == last.now && Mirror(end.world, h[end.cursor])
  {
    RunsFollow(h, s, runs);
    hide Follows, SteadyMarkers, LegalRuns, Legal, RunFeed;
    RunFollows(h, DeltaRuns(s, runs), last);
  }

  // ----- the full pass ---------------------------------------------------------------------

  /** The connector's contract for a full pass: every contact of the snapshot, and no tombstones. */
  ghost predicate FullFeed(snap: Snapshot, feed: seq<Item>) {
    && (forall item <- feed :: !item.contact.deleted && Accurate(snap, item.contact))
    && (forall id <- snap :: exists item <- feed :: item.contact.sourceId == id)
  }

  /** A full pass can leave this contact as the snapshot has it: it does not look at done rows again,
      and hears nothing of contacts that are gone. */
  predicate FullPassServes(w: World, snap: Snapshot, id: SourceId) {
    if id in snap then IsDone(w.rows, id) ==> Synced(w, snap, id) else OwnCopies(w, id) == map[]
  }

  /** What a clean prefix of a full pass did to a contact: nothing, or it brought it up to date. */
  ghost predicate FullProgress(w: World, w': World, snap: Snapshot, feed: seq<Item>, id: SourceId) {
    if (exists item <- feed :: item.contact.sourceId == id) && !IsDone(w.rows, id)
    then Synced(w', snap, id) && IsDone(w'.rows, id)
    else SameFor(w, w', id)
  }

  lemma FullStep(w: World, w': World, snap: Snapshot, feed: seq<Item>, item: Item, id: SourceId)
    requires Sound(w') && FullProgress(w, w', snap, feed, id)
    requires !item.contact.deleted && Accurate(snap, item.contact) && Step(Full, w', item).1.Fine?
    ensures FullProgress(w, Step(Full, w', item).0, snap, feed + [item], id)
  {
    assert forall i <- feed + [item] :: i in feed || i == item;
    assert forall i <- feed :: i in feed + [item];
    assert item in feed + [item];
    if item.contact.sourceId == id {
      OwnStep(Full, w', item, snap);
      hide Sound, Synced, Migrate;
    } else {
      StepOthers(Full, w', item, id);
      SyncedBySame(w', Step(Full, w', item).0, snap, id);
      hide Sound, Synced, Step;
    }
  }

  lemma {:induction false} FullPassProgress(w: World, snap: Snapshot, feed: seq<Item>, id: SourceId)
    requires Sound(w) && Clean(RunFeed(Full, w, feed))
    requires forall item <- feed :: !item.contact.deleted && Accurate(snap, item.contact)
    ensures Sound(RunFeed(Full, w, feed).world) && FullProgress(w, RunFeed(Full, w, feed).world, snap, feed, id)
  {
    if feed != [] {
      hide FullProgress, Sound, Accurate, Step;
      var init, item := feed[..|feed| - 1], feed[|feed| - 1];
      assert feed == init + [item];
      assert item in feed;
      FullPassProgress(w, snap, init, id);
      var p := RunFeed(Full, w, init);
      FullStep(w, p.world, snap, init, item, id);
      FineIsWhole(Full, p.world, item);
      StepSound(Full, p.world, item);
    }
  }

  lemma FineIsWhole(mode: Mode, w: World, item: Item)
    requires Step(mode, w, item).1.Fine?
    ensures !TornCreate(mode, w, item)
  {
  }

  /** Main result. A failure-free full pass leaves a mirror of its snapshot if and only if every
      contact recorded as done was already in sync with it and no contact gone from the source
      still has a copy. On an empty store both hold. */
  lemma FullPassMirrors(w: World, snap: Snapshot, feed: seq<Item>)
    requires Sound(w) && FullFeed(snap, feed) && Clean(RunFeed(Full, w, feed))
    ensures Mirror(RunFeed(Full, w, feed).world, snap) <==> forall id: SourceId :: FullPassServes(w, snap, id)
    ensures w.rows == map[] && w.live == map[] ==> Mirror(RunFeed(Full, w, feed).world, snap)
  {
    var w' := RunFeed(Full, w, feed).world;
    forall id: SourceId ensures Synced(w', snap, id) <==> FullPassServes(w, snap, id) {
      FullPassProgress(w, snap, feed, id);
      SyncedIffServed(w, w', snap, feed, id);
    }
  }

  lemma SyncedIffServed(w: World, w': World, snap: Snapshot, feed: seq<Item>, id: SourceId)
    requires Sound(w) && FullFeed(snap, feed) && FullProgress(w, w', snap, feed, id)
    ensures Synced(w', snap, id) <==> FullPassServes(w, snap, id)
  {
    hide Sound, OwnCopies;
    if exists item <- feed :: item.contact.sourceId == id {
      assert id in snap;
    }
    if SameFor(w, w', id) { SyncedBySame(w, w', snap, id); }
  }

  lemma SyncedMarkers(w: World, h: History, t: nat, id: SourceId)
    requires t < |h| && SteadyMarkers(h) && Synced(w, h[t], id) && HashKnown(w, h, t, id)
    ensures MarkerSynced(w, h, t, id)
  {
    hide Synced;
    forall m: nat | t <= m < |h| && id in h[m] && IsDone(w.rows, id) && HashOf(w.rows, id) == Some(h[m][id].hash)
      ensures Synced(w, h[m], id)
    {
      var k: nat :| k <= t && id in h[k] && h[k][id].hash == w.rows[id].sourceHash.value;
      assert SameMarker(h, id, k, m);
      assert KeptBetween(h, id, k, m);
      SyncedAlike(w, h, t, m, id);
    }
  }

  /** After a clean full pass on an empty store the deltas can start. */
  lemma FullPassStarts(h: History, t: nat, feed: seq<Item>)
    requires t < |h| && FullFeed(h[t], feed)
    requires Clean(RunFeed(Full, World(map[], map[], 0), feed))
    ensures Follows(h, System(RunFeed(Full, World(map[], map[], 0), feed).world, t, t))
  {
    var empty := World(map[], map[], 0);
    FullPassMirrors(empty, h[t], feed);
    var w := RunFeed(Full, empty, feed).world;
    FullPassProgress(empty, h[t], feed, "");
    hide RunFeed, Sound, Synced, MarkerSynced, SteadyMarkers;
    if SteadyMarkers(h) {
      forall id: SourceId ensures TracksItem(w, h, t, t, id) {
        FullHashKnown(empty, h, t, feed, id);
        assert Synced(w, h[t], id);
        SyncedMarkers(w, h, t, id);
      }
    }
  }

  lemma {:induction false} FullHashKnown(w: World, h: History, t: nat, feed: seq<Item>, id: SourceId)
    requires t < |h| && HashKnown(w, h, t, id)
    requires forall item <- feed :: !item.contact.deleted && Accurate(h[t], item.contact)
    ensures HashKnown(RunFeed(Full, w, feed).world, h, t, id)
  {
    if feed != [] {
      var init, item := feed[..|feed| - 1], feed[|feed| - 1];
      assert feed == init + [item];
      assert item in feed;
      FullHashKnown(w, h, t, init, id);
    }
  }

  // ----- a marker that is used again ------------------------------------------------------

  /** With a marker that only identifies the body, and so may come back, the mirror fails: contact c
      changes from A to B, a delta sends B and dies before it records it, c changes back to A, and
      the next delta, which succeeds, takes A's marker for "unchanged" and leaves B. */
  lemma ReusedMarkerBreaksMirror()
    ensures var h: History := [map["c" := Version("A", "a")], map["c" := Version("B", "b")], map["c" := Version("A", "a")]];
            var w := World(map["c" := Row(Done, Some(0), Some("a"))], map[0 := Copy("c", "A")], 1);
            var torn := [Item(Contact("c", "B", "b", false), DiesAfter)];
            var last := [Item(Contact("c", "A", "a", false), Succeeds)];
            var s1 := DeltaRun(System(w, 0, 0), Run(1, torn));
            var s2 := DeltaRun(s1, Run(2, last));
            && Mirror(w, h[0]) && Legal(h, System(w, 0, 0), Run(1, torn)) && Legal(h, s1, Run(2, last))
            && s2.cursor == 2 && !Mirror(s2.world, h[2])
  {
    var h: History := [map["c" := Version("A", "a")], map["c" := Version("B", "b")], map["c" := Version("A", "a")]];
    var w := World(map["c" := Row(Done, Some(0), Some("a"))], map[0 := Copy("c", "A")], 1);
    var torn := [Item(Contact("c", "B", "b", false), DiesAfter)];
    var last := [Item(Contact("c", "A", "a", false), Succeeds)];
    var s1 := DeltaRun(System(w, 0, 0), Run(1, torn));
    var s2 := DeltaRun(s1, Run(2, last));
    assert torn[0] in torn && last[0] in last;
    forall id: SourceId | id != "c" ensures !Touched(h, id, 0, 1) && !Touched(h, id, 0, 2) {
      assert VersionAt(h, 0, id) == VersionAt(h, 1, id) == VersionAt(h, 2, id) == None;
    }
    assert s2.world.live == map[0 := Copy("c", "B")];
    assert !Synced(s2.world, h[2], "c");
  }
}
