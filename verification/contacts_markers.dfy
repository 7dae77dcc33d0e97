/** When the contacts mirror can be relied on: exactly when change markers are steady. Whenever they
    are not, some failure-free full pass and legal deltas end in a failure-free delta that does not
    leave a mirror. */
module ContactsMarkers {
  import opened Wrappers
  import opened State
  import opened ContactsPass
  import opened ContactsMirror

  const EMPTY := World(map[], map[], 0)

  /** The state after a full pass on an empty store. */
  function Start(t: nat, feed: seq<Item>): System {
    System(RunFeed(Full, EMPTY, feed).world, t, t)
  }

  ghost predicate Begins(h: History, t: nat, feed: seq<Item>) {
    t < |h| && FullFeed(h[t], feed) && Clean(RunFeed(Full, EMPTY, feed))
  }

  ghost predicate Mirrors(h: History, t: nat, feed: seq<Item>, runs: seq<Run>, last: Run) {
    Begins(h, t, feed) && LegalRuns(h, Start(t, feed), runs) && Legal(h, DeltaRuns(Start(t, feed), runs), last)
    && Clean(RunFeed(Delta, DeltaRuns(Start(t, feed), runs).world, last.feed)) ==>
      Mirror(DeltaRun(DeltaRuns(Start(t, feed), runs), last).world, h[last.now])
  }

  /** Every failure-free delta after a failure-free full pass on an empty store, and any deltas in which
      items fail and the process dies anywhere but between a create and its row, leaves a mirror. */
  ghost predicate MirrorSafe(h: History) {
    forall t: nat, feed: seq<Item>, runs: seq<Run>, last: Run :: Mirrors(h, t, feed, runs, last)
  }

  // ----- feeds without failures ------------------------------------------------------------

  /** What the connector reports of a contact. */
  function ItemFor(snap: Snapshot, id: SourceId, call: Call): Item {
    if id in snap then Item(Contact(id, snap[id].body, snap[id].hash, false), call)
    else Item(Contact(id, "", "", true), call)
  }

  predicate DistinctFeed(feed: seq<Item>) {
    feed != [] ==>
      var init, item := feed[..|feed| - 1], feed[|feed| - 1];
      DistinctFeed(init) && forall i <- init :: i.contact.sourceId != item.contact.sourceId
  }

  ghost predicate ListsItems(snap: Snapshot, ids: set<SourceId>, feed: seq<Item>) {
    && DistinctFeed(feed)
    && (forall item <- feed :: item.contact.sourceId in ids && item == ItemFor(snap, item.contact.sourceId, Succeeds))
    && (forall id <- ids :: exists item <- feed :: item.contact.sourceId == id)
  }

  lemma ListItems(snap: Snapshot, ids: set<SourceId>) returns (feed: seq<Item>)
    ensures ListsItems(snap, ids, feed)
  {
    if ids == {} {
      feed := [];
    } else {
      var id :| id in ids;
      var rest := ListItems(snap, ids - {id});
      var item := ItemFor(snap, id, Succeeds);
      feed := rest + [item];
      assert feed[..|feed| - 1] == rest && feed[|feed| - 1] == item && item in feed;
      forall other <- ids ensures exists i <- feed :: i.contact.sourceId == other {
        if other != id {
          assert other in ids - {id};
          var i :| i in rest && i.contact.sourceId == other;
          assert i in feed;
        }
      }
    }
  }

  /** The step of the item meets no missing copy. */
  predicate Serviceable(mode: Mode, w: World, item: Item) {
    var dest := DestOf(w.rows, item.contact.sourceId);
    (dest.Some? ==> dest.value in OwnCopies(w, item.contact.sourceId))
    || (!item.contact.deleted && Unchanged(mode, w.rows, item.contact))
  }

  lemma ServiceableSame(mode: Mode, w: World, w': World, item: Item)
    requires SameFor(w, w', item.contact.sourceId) && Serviceable(mode, w, item)
    ensures Serviceable(mode, w', item)
  {
    hide OwnCopies;
  }

  lemma ServedFine(mode: Mode, w: World, item: Item)
    requires Serviceable(mode, w, item) && item.call.Succeeds?
    ensures Step(mode, w, item).1.Fine? && !TornCreate(mode, w, item)
  {
  }

  ghost predicate Served(mode: Mode, w: World, feed: seq<Item>) {
    var p := RunFeed(mode, w, feed);
    && Clean(p) && Sound(p.world) && NoTornCreate(mode, w, feed)
    && forall id: SourceId :: (forall item <- feed :: item.contact.sourceId != id) ==> SameFor(w, p.world, id)
  }

  lemma SameForTrans(a: World, b: World, c: World, id: SourceId)
    requires SameFor(a, b, id) && SameFor(b, c, id)
    ensures SameFor(a, c, id)
  {
    hide OwnCopies;
  }

  /** A feed of distinct serviceable items that all succeed is clean, and only touches its own. */
  lemma {:induction false} CleanFeed(mode: Mode, w: World, feed: seq<Item>)
    requires Sound(w) && DistinctFeed(feed)
    requires forall item <- feed :: item.call.Succeeds? && Serviceable(mode, w, item)
    ensures Served(mode, w, feed)
  {
    if feed != [] {
      var init, item := feed[..|feed| - 1], feed[|feed| - 1];
      assert feed == init + [item] && item in feed;
      assert forall i <- init :: i in feed;
      CleanFeed(mode, w, init);
      RunFeedStep(mode, w, init, item);
      hide RunFeed, Serviceable, Sound, Step, TornCreate, SameFor, DistinctFeed;
      var p := RunFeed(mode, w, init);
      ServiceableSame(mode, w, p.world, item);
      ServedFine(mode, p.world, item);
      StepSound(mode, p.world, item);
      forall id: SourceId | forall i <- feed :: i.contact.sourceId != id
        ensures SameFor(w, Step(mode, p.world, item).0, id)
      {
        StepOthers(mode, p.world, item, id);
        SameForTrans(w, p.world, Step(mode, p.world, item).0, id);
      }
    }
  }

  /** A contact whose item is skipped stays as it is. */
  lemma {:induction false} SkippedStays(w: World, feed: seq<Item>, id: SourceId)
    requires Sound(w) && NoTornCreate(Delta, w, feed) && Clean(RunFeed(Delta, w, feed))
    requires forall item <- feed :: item.contact.sourceId == id ==>
               item.call.Succeeds? && !item.contact.deleted && Unchanged(Delta, w.rows, item.contact)
    ensures SameFor(w, RunFeed(Delta, w, feed).world, id) && Sound(RunFeed(Delta, w, feed).world)
  {
    if feed != [] {
      var init, item := feed[..|feed| - 1], feed[|feed| - 1];
      assert feed == init + [item] && item in feed;
      assert forall i <- init :: i in feed;
      RunFeedStep(Delta, w, init, item);
      var p := RunFeed(Delta, w, init);
      hide RunFeed, Sound, TornCreate, OwnCopies, Migrate, Tombstone;
      AdvanceClean(Delta, p, item);
      SkippedStays(w, init, id);
      StepSound(Delta, p.world, item);
      if item.contact.sourceId != id {
        hide Step;
        StepOthers(Delta, p.world, item, id);
        SameForTrans(w, p.world, Step(Delta, p.world, item).0, id);
      }
    }
  }

  /** Nothing happens after the process died at the first item. */
  lemma {:induction false} DeadFeed(w: World, first: Item, rest: seq<Item>)
    requires Step(Delta, w, first).1.Death? && !TornCreate(Delta, w, first)
    ensures var p := RunFeed(Delta, w, [first] + rest); p.died && p.world == Step(Delta, w, first).0
    ensures NoTornCreate(Delta, w, [first] + rest)
  {
    hide Step, TornCreate;
    if rest == [] {
      assert [first] + rest == [] + [first];
      RunFeedStep(Delta, w, [], first);
      assert ([first] + rest)[..0] == [];
    } else {
      var init, item := rest[..|rest| - 1], rest[|rest| - 1];
      assert [first] + rest == ([first] + init) + [item];
      DeadFeed(w, first, init);
      RunFeedStep(Delta, w, [first] + init, item);
      assert (([first] + init) + [item])[..|[first] + init|] == [first] + init;
      hide RunFeed;
    }
  }

  // ----- the touched contacts --------------------------------------------------------------

  function TouchedIds(h: History, a: nat, b: nat): set<SourceId>
    requires a <= b < |h|
  {
    set k, id | 0 <= k < |h| && id in h[k] && Touched(h, id, a, b) :: id
  }

  lemma {:induction false} TouchedSeen(h: History, id: SourceId, a: nat, b: nat)
    requires a <= b < |h| && Touched(h, id, a, b)
    ensures id in TouchedIds(h, a, b)
  {
    SeenWhenTouched(h, id, a, b);
  }

  lemma {:induction false} SeenWhenTouched(h: History, id: SourceId, a: nat, b: nat)
    requires a <= b < |h| && Touched(h, id, a, b)
    ensures exists k: nat :: k < |h| && id in h[k]
  {
    if VersionAt(h, b, id) == VersionAt(h, b - 1, id) { SeenWhenTouched(h, id, a, b - 1); }
    else if id in h[b] { } else { assert id in h[b - 1]; }
  }

  lemma DeltaOf(h: History, a: nat, b: nat, feed: seq<Item>)
    requires a <= b < |h| && ListsItems(h[b], TouchedIds(h, a, b), feed)
    ensures DeltaFeed(h, a, b, feed)
  {
    forall id: SourceId | Touched(h, id, a, b) ensures exists item <- feed :: item.contact.sourceId == id {
      TouchedSeen(h, id, a, b);
    }
  }

  // ----- the start -------------------------------------------------------------------------

  /** After the full pass on an empty store: every row has its copy, and the contact is done under the
      marker of the snapshot. */
  ghost predicate Started(w: World, snap: Snapshot) {
    && Sound(w) && Mirror(w, snap)
    && (forall id: SourceId :: DestOf(w.rows, id).Some? ==> DestOf(w.rows, id).value in OwnCopies(w, id))
    && (forall id <- snap :: IsDone(w.rows, id) && HashOf(w.rows, id) == Marker(snap[id].hash))
  }

  lemma FullStart(h: History, t: nat) returns (feed: seq<Item>)
    requires t < |h|
    ensures Begins(h, t, feed) && Started(Start(t, feed).world, h[t])
  {
    var snap := h[t];
    feed := ListItems(snap, snap.Keys);
    CleanFeed(Full, EMPTY, feed);
    DestIdsStayExact(Full, EMPTY, feed);
    assert FullFeed(snap, feed);
    FullPassMirrors(EMPTY, snap, feed);
    var w := RunFeed(Full, EMPTY, feed).world;
    ExactCopies(w);
    forall id <- snap ensures IsDone(w.rows, id) && HashOf(w.rows, id) == Marker(snap[id].hash) {
      FullPassProgress(EMPTY, snap, feed, id);
      FullHash(snap, feed, id);
    }
    hide RunFeed, ListsItems, FullFeed, Sound, Mirror, DestIdsExact;
  }

  lemma ExactCopies(w: World)
    requires DestIdsExact(w)
    ensures forall id: SourceId :: DestOf(w.rows, id).Some? ==> DestOf(w.rows, id).value in OwnCopies(w, id)
  {
  }

  predicate HashDone(w: World, snap: Snapshot, id: SourceId) {
    id in snap && IsDone(w.rows, id) ==> HashOf(w.rows, id) == Marker(snap[id].hash)
  }

  lemma HashStep(snap: Snapshot, w: World, item: Item, id: SourceId)
    requires HashDone(w, snap, id) && !item.contact.deleted && Accurate(snap, item.contact)
    ensures HashDone(Step(Full, w, item).0, snap, id)
  {
    hide Tombstone, OwnCopies, Synced;
  }

  lemma {:induction false} FullHash(snap: Snapshot, feed: seq<Item>, id: SourceId)
    requires forall item <- feed :: !item.contact.deleted && Accurate(snap, item.contact)
    ensures HashDone(RunFeed(Full, EMPTY, feed).world, snap, id)
  {
    if feed != [] {
      var init, item := feed[..|feed| - 1], feed[|feed| - 1];
      assert feed == init + [item] && item in feed;
      hide RunFeed, Step, HashDone;
      FullHash(snap, init, id);
      RunFeedStep(Full, EMPTY, init, item);
      HashStep(snap, RunFeed(Full, EMPTY, init).world, item, id);
    }
  }

  // ----- a marker that is not steady -------------------------------------------------------

  lemma NotMirrored(h: History, t: nat, feed: seq<Item>, runs: seq<Run>, last: Run)
    requires !Mirrors(h, t, feed, runs, last)
    ensures !MirrorSafe(h)
  {
  }

  /** The last delta: it skips the contact, whose copy is not what the snapshot has. */
  lemma SkipsStale(h: History, cursor: nat, now: nat, w: World, id: SourceId) returns (feed: seq<Item>)
    requires cursor <= now < |h| && Sound(w) && id in h[now] && h[now][id].hash != ""
    requires IsDone(w.rows, id) && HashOf(w.rows, id) == Some(h[now][id].hash) && !Synced(w, h[now], id)
    requires forall other: SourceId :: other != id && DestOf(w.rows, other).Some? ==>
               DestOf(w.rows, other).value in OwnCopies(w, other)
    ensures DeltaFeed(h, cursor, now, feed) && NoTornCreate(Delta, w, feed) && Clean(RunFeed(Delta, w, feed))
    ensures !Mirror(RunFeed(Delta, w, feed).world, h[now])
  {
    feed := ListItems(h[now], TouchedIds(h, cursor, now));
    DeltaOf(h, cursor, now, feed);
    hide RunFeed, Sound, OwnCopies, TouchedIds, Synced, DeltaFeed;
    forall item <- feed ensures item.call.Succeeds? && Serviceable(Delta, w, item) {
      if item.contact.sourceId == id { assert Unchanged(Delta, w.rows, item.contact); }
    }
    CleanFeed(Delta, w, feed);
    SkippedStays(w, feed, id);
    SyncedBySame(w, RunFeed(Delta, w, feed).world, h[now], id);
  }

  /** Two snapshots that give different bodies one marker: no crash is needed. */
  lemma OneMarkerTwoBodies(h: History, id: SourceId, i: nat, j: nat)
    requires SameMarker(h, id, i, j) && h[i][id].body != h[j][id].body
    ensures !MirrorSafe(h)
  {
    var full := FullStart(h, i);
    var s := Start(i, full);
    assert Synced(s.world, h[i], id);
    var feed := SkipsStale(h, i, j, s.world, id);
    hide RunFeed, Sound, Synced, Mirror, DeltaFeed, Begins, Started;
    var last := Run(j, feed);
    assert DeltaRuns(s, []) == s && LegalRuns(h, s, []);
    assert Legal(h, s, last);
    NotMirrored(h, i, full, [], last);
  }

  /** The delta that dies right after it sent the change of the contact, or deleted it. */
  lemma DiesAtFirst(h: History, i: nat, k: nat, w: World, id: SourceId) returns (run: Run)
    requires i <= k < |h| && id in h[i] && Started(w, h[i])
    requires id in h[k] ==> h[k][id].hash != h[i][id].hash || h[k][id].hash == ""
    ensures run.now == k && DeltaFeed(h, i, k, run.feed) && NoTornCreate(Delta, w, run.feed)
    ensures var p := RunFeed(Delta, w, run.feed); p.died && p.world == Step(Delta, w, ItemFor(h[k], id, DiesAfter)).0
    ensures Step(Delta, w, ItemFor(h[k], id, DiesAfter)).1.Death? && !TornCreate(Delta, w, ItemFor(h[k], id, DiesAfter))
  {
    var first := ItemFor(h[k], id, DiesAfter);
    var rest := ListItems(h[k], TouchedIds(h, i, k));
    DeltaOf(h, i, k, rest);
    assert Synced(w, h[i], id);
    assert DestOf(w.rows, id).Some? && DestOf(w.rows, id).value in OwnCopies(w, id);
    assert Step(Delta, w, first).1.Death? && !TornCreate(Delta, w, first);
    DeadFeed(w, first, rest);
    run := Run(k, [first] + rest);
    forall item <- run.feed ensures Accurate(h[k], item.contact) {
      if item != first { assert item in rest; }
    }
    forall x: SourceId | Touched(h, x, i, k) ensures exists item <- run.feed :: item.contact.sourceId == x {
      var item :| item in rest && item.contact.sourceId == x;
      assert item in run.feed;
    }
    hide RunFeed, Step, Sound, Mirror, TornCreate, TouchedIds, Touched;
  }

  /** What that leaves: the old row, and no copy or one with the body of snapshot k. */
  lemma LeftBehind(h: History, i: nat, k: nat, w: World, id: SourceId)
    requires i <= k < |h| && id in h[i] && Started(w, h[i])
    requires id in h[k] ==> h[k][id].hash != h[i][id].hash || h[k][id].hash == ""
    ensures var w' := Step(Delta, w, ItemFor(h[k], id, DiesAfter)).0;
            && Sound(w') && w'.rows == w.rows && DestOf(w.rows, id).Some?
            && OwnCopies(w', id) == (if id in h[k] then map[DestOf(w.rows, id).value := Copy(id, h[k][id].body)] else map[])
            && forall other: SourceId :: other != id && DestOf(w'.rows, other).Some? ==>
                 DestOf(w'.rows, other).value in OwnCopies(w', other)
  {
    var item := ItemFor(h[k], id, DiesAfter);
    assert Synced(w, h[i], id);
    var dest := DestOf(w.rows, id).value;
    assert dest in OwnCopies(w, id);
    assert !TornCreate(Delta, w, item);
    StepSound(Delta, w, item);
    var w' := Step(Delta, w, item).0;
    OneCopy(w', id);
    hide Sound;
    forall other: SourceId | other != id && DestOf(w'.rows, other).Some?
      ensures DestOf(w'.rows, other).value in OwnCopies(w', other)
    {
      StepOthers(Delta, w, item, other);
      assert DestOf(w.rows, other).value in OwnCopies(w, other);
    }
  }

  /** A contact that went, or had another body under another marker, and came back. */
  lemma ComesBack(h: History, id: SourceId, i: nat, k: nat, j: nat)
    requires SameMarker(h, id, i, j) && i <= k <= j && h[i][id].body == h[j][id].body
    requires id in h[k] ==> h[k][id].body != h[i][id].body && !SameMarker(h, id, i, k)
    ensures !MirrorSafe(h)
  {
    var full := FullStart(h, i);
    var s := Start(i, full);
    var torn := DiesAtFirst(h, i, k, s.world, id);
    LeftBehind(h, i, k, s.world, id);
    var w' := Step(Delta, s.world, ItemFor(h[k], id, DiesAfter)).0;
    NotInSync(w', h[j], id, if id in h[k] then Some(h[k][id].body) else None);
    hide RunFeed, Sound, Synced, Mirror, DeltaFeed, Begins, Step, OwnCopies;
    assert Synced(s.world, h[i], id);
    var feed := SkipsStale(h, i, j, w', id);
    var last := Run(j, feed);
    assert DeltaRuns(s, [torn]) == DeltaRun(s, torn) == System(w', i, k) by { OneRun(s, torn); }
    assert LegalRuns(h, s, [torn]) by { OneLegal(h, s, torn); }
    assert Legal(h, System(w', i, k), last);
    NotMirrored(h, i, full, [torn], last);
  }

  lemma NotInSync(w: World, snap: Snapshot, id: SourceId, body: Option<string>)
    requires id in snap && DestOf(w.rows, id).Some? && body != Some(snap[id].body)
    requires OwnCopies(w, id) == if body.Some? then map[DestOf(w.rows, id).value := Copy(id, body.value)] else map[]
    ensures !Synced(w, snap, id)
  {
    var dest := DestOf(w.rows, id).value;
    hide OwnCopies;
    assert map[dest := Copy(id, snap[id].body)][dest] == Copy(id, snap[id].body);
    if body.Some? { assert OwnCopies(w, id)[dest] == Copy(id, body.value); }
  }

  lemma OneRun(s: System, run: Run)
    ensures DeltaRuns(s, [run]) == DeltaRun(s, run)
  {
    hide DeltaRun;
    assert [run][..0] == [];
  }

  lemma OneLegal(h: History, s: System, run: Run)
    requires Legal(h, s, run)
    ensures LegalRuns(h, s, [run])
  {
    hide Legal;
    assert [run][..0] == [];
    assert LegalRuns(h, s, []) && DeltaRuns(s, []) == s;
  }

  lemma UnsteadyBreaks(h: History)
    requires !SteadyMarkers(h)
    ensures !MirrorSafe(h)
  {
    var id: SourceId, i: nat, j: nat :| SameMarker(h, id, i, j) && !KeptBetween(h, id, i, j);
    var k :| i <= k <= j && !(id in h[k] && h[k][id].body == h[i][id].body);
    hide MirrorSafe, SteadyMarkers;
    if h[j][id].body != h[i][id].body {
      OneMarkerTwoBodies(h, id, i, j);
    } else if id in h[k] && SameMarker(h, id, i, k) {
      OneMarkerTwoBodies(h, id, i, k);
    } else {
      ComesBack(h, id, i, k, j);
    }
  }

  /** Main result. The mirror is safe if and only if a marker that is used again has meant the same body
      all the time in between. */
  lemma MarkersDecide(h: History)
    ensures MirrorSafe(h) <==> SteadyMarkers(h)
  {
    if SteadyMarkers(h) {
      forall t: nat, feed: seq<Item>, runs: seq<Run>, last: Run ensures Mirrors(h, t, feed, runs, last) {
        SteadyMirrors(h, t, feed, runs, last);
      }
    } else {
      UnsteadyBreaks(h);
    }
  }

  lemma SteadyMirrors(h: History, t: nat, feed: seq<Item>, runs: seq<Run>, last: Run)
    requires SteadyMarkers(h)
    ensures Mirrors(h, t, feed, runs, last)
  {
    hide SteadyMarkers, RunFeed, FullFeed, LegalRuns, Legal, DeltaRuns, DeltaRun, Mirror, Follows;
    if Begins(h, t, feed) && LegalRuns(h, Start(t, feed), runs) && Legal(h, DeltaRuns(Start(t, feed), runs), last)
       && Clean(RunFeed(Delta, DeltaRuns(Start(t, feed), runs).world, last.feed)) {
      FullPassStarts(h, t, feed);
      DeltasMirror(h, Start(t, feed), runs, last);
    }
  }
}
