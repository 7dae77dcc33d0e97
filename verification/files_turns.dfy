/** The order in which a pass settles its items. The deferral loop of _migrate sweeps until nothing more
    resolves, places the orphans, and starts over; the turn of an item says after how many of these
    steps it is settled. Turns do not depend on the listing; the order within one turn does. */
module FilesTurns {
  import opened Wrappers
  import opened State
  import opened FilesPass
  import opened FilesAccounting
  import opened FilesPlacement
  import opened FilesRuns

  /** Settled without a look at the parent. */
  predicate NeedsNoParent(pl: Plan, f: SourceFile) {
    !f.isFolder && (UpToDate(pl.env, pl.start.rows, f) || f.skip || Existing(pl.env, pl.start.rows, f).Some?)
  }

  /** The folder resolves for its children once it is settled: it is created, or its creation raised. */
  predicate Opens(pl: Plan, id: SourceId)
    requires ValidPlan(pl) && id in pl.items
  {
    pl.items[id].isFolder && Home(pl, id).At?
  }

  /** Even turns are the sweeps that defer, odd turns the placements of orphans: what opens resolves its
      children in the sweeps that follow, what does not leaves them to the next placement. */
  function Turn(pl: Plan, id: SourceId): nat
    requires ValidPlan(pl) && id in pl.items
    decreases pl.rank[id]
  {
    if NeedsNoParent(pl, pl.items[id]) then 0
    else
      match pl.items[id].parentId
      case None => 0
      case Some(p) =>
        if p in pl.start.folderMap then 0
        else if p in pl.items then
          assert BelowParent(pl, id);
          var t := Turn(pl, p);
          if Opens(pl, p) then t + t % 2 else t + 1 + t % 2
        else 1
  }

  /** The parent of the item does not resolve. */
  ghost predicate Unresolved(pl: Plan, open: set<SourceId>, id: SourceId)
    requires ValidPlan(pl) && id in pl.items
  {
    var p := pl.items[id].parentId;
    && !NeedsNoParent(pl, pl.items[id]) && p.Some? && p.value !in pl.start.folderMap
    && !(p.value in pl.items && p.value !in open && Opens(pl, p.value))
  }

  /** The item is placed when this parent is settled, or as an orphan. */
  predicate Awaits(pl: Plan, id: SourceId, p: SourceId)
    requires id in pl.items
  {
    !NeedsNoParent(pl, pl.items[id]) && pl.items[id].parentId == Some(p) && p !in pl.start.folderMap
  }

  /** Turn t is on: what was due earlier is settled, what is due later is not. */
  ghost predicate Clock(pl: Plan, open: set<SourceId>, t: nat)
    requires ValidPlan(pl)
  {
    forall id <- pl.items :: if id in open then t <= Turn(pl, id) else Turn(pl, id) <= t
  }

  lemma ResolvedInTurn(pl: Plan, open: set<SourceId>, id: SourceId, t: nat)
    requires ValidPlan(pl) && Clock(pl, open, t) && t % 2 == 0 && id in open && id in pl.items
    requires !Unresolved(pl, open, id)
    ensures Turn(pl, id) == t
  {
    hide Home;
  }

  lemma WaitsInTurn(pl: Plan, open: set<SourceId>, id: SourceId, t: nat)
    requires ValidPlan(pl) && Clock(pl, open, t) && t % 2 == 0 && id in open && id in pl.items
    requires Unresolved(pl, open, id) && Turn(pl, id) == t
    ensures var p := pl.items[id].parentId;
            && p.Some? && p.value in pl.items && p.value in open && Turn(pl, p.value) == t
            && Awaits(pl, id, p.value) && pl.rank[p.value] < pl.rank[id]
  {
    hide Home;
    assert BelowParent(pl, id);
  }

  /** When no open item resolves, the turn is over. */
  lemma {:induction false} TurnOver(pl: Plan, open: set<SourceId>, id: SourceId, t: nat)
    requires ValidPlan(pl) && Clock(pl, open, t) && t % 2 == 0 && id in open && open <= pl.items.Keys
    requires forall k <- open :: Unresolved(pl, open, k)
    ensures Turn(pl, id) > t
    decreases pl.rank[id]
  {
    hide Turn, Unresolved;
    if Turn(pl, id) <= t {
      assert Turn(pl, id) == t;
      WaitsInTurn(pl, open, id, t);
      TurnOver(pl, open, pl.items[id].parentId.value, t);
    }
  }

  /** Then the orphans are due, and the other open items later. */
  lemma OrphanTurn(pl: Plan, open: set<SourceId>, id: SourceId, t: nat)
    requires ValidPlan(pl) && Clock(pl, open, t) && t % 2 == 0 && id in open && open <= pl.items.Keys
    requires forall k <- open :: Unresolved(pl, open, k) && Turn(pl, k) > t
    ensures var p := pl.items[id].parentId;
            p.Some? && if p.value in open then Turn(pl, id) > t + 1 else Turn(pl, id) == t + 1
  {
    hide Home;
    assert BelowParent(pl, id);
    assert Unresolved(pl, open, id) && Turn(pl, id) > t;
    if pl.items[id].parentId.value in open { assert Turn(pl, pl.items[id].parentId.value) > t; }
  }

  // ----- within a turn ---------------------------------------------------------------------

  /** A priority of the items within a turn. */
  type Key = SourceId -> nat

  /** A parent that the item waits for comes before it. */
  ghost predicate GoodKey(pl: Plan, key: Key)
    requires ValidPlan(pl)
  {
    forall id <- pl.items, p <- pl.items :: Awaits(pl, id, p) && Turn(pl, p) == Turn(pl, id) ==> key(p) < key(id)
  }

  /** By turn, and by key in one turn. */
  ghost predicate Earlier(pl: Plan, key: Key, x: SourceId, y: SourceId)
    requires ValidPlan(pl) && x in pl.items && y in pl.items
  {
    Turn(pl, x) < Turn(pl, y) || (Turn(pl, x) == Turn(pl, y) && key(x) < key(y))
  }

  /** In the listing no item comes before one that is earlier. */
  ghost predicate Sorted(pl: Plan, key: Key, batch: seq<SourceFile>)
    requires ValidPlan(pl) && Drawn(pl, batch)
  {
    batch != [] ==>
      var init, f := batch[..|batch| - 1], batch[|batch| - 1];
      Sorted(pl, key, init) && forall g <- init :: !Earlier(pl, key, f.sourceId, g.sourceId)
  }

  /** What is open, due in turn t and earlier than an item of the batch is in the batch too. */
  ghost predicate Downward(pl: Plan, open: set<SourceId>, batch: seq<SourceFile>, t: nat, key: Key)
    requires ValidPlan(pl) && Drawn(pl, batch) && open <= pl.items.Keys
  {
    forall x <- open, g <- batch ::
      Turn(pl, x) == t && Earlier(pl, key, x, g.sourceId) ==> x in Ids(batch)
  }

  lemma SortedSnoc(pl: Plan, key: Key, batch: seq<SourceFile>, f: SourceFile)
    requires ValidPlan(pl) && Drawn(pl, batch + [f])
    ensures Drawn(pl, batch) && f.sourceId in pl.items && forall g <- batch :: g.sourceId in pl.items
    ensures Sorted(pl, key, batch + [f]) <==>
              Sorted(pl, key, batch) && forall g <- batch :: !Earlier(pl, key, f.sourceId, g.sourceId)
  {
    hide Earlier;
    assert (batch + [f])[..|batch|] == batch;
    assert forall g <- batch :: g in batch + [f];
    assert f in batch + [f];
  }

  lemma DownwardInit(pl: Plan, open: set<SourceId>, batch: seq<SourceFile>, f: SourceFile, t: nat, key: Key)
    requires ValidPlan(pl) && Drawn(pl, batch + [f]) && open <= pl.items.Keys
    requires Sorted(pl, key, batch + [f]) && Downward(pl, open, batch + [f], t, key)
    ensures Drawn(pl, batch) && Sorted(pl, key, batch) && Downward(pl, open, batch, t, key)
  {
    hide Earlier, Turn;
    SortedSnoc(pl, key, batch, f);
    Snoc(batch, f);
    forall x <- open, g <- batch | Turn(pl, x) == t && Earlier(pl, key, x, g.sourceId)
      ensures x in Ids(batch)
    {
      assert g in batch + [f];
    }
  }

  // ----- the calls of a pass, each in turn -------------------------------------------------

  /** The items that the pass has not settled. */
  ghost function Open(pl: Plan, s: Pass): set<SourceId> {
    set id <- pl.items | s.settled[id] == pl.start.settled[id]
  }

  ghost predicate Ledger(pl: Plan, s: Pass, open: set<SourceId>) {
    forall id <- pl.items :: s.settled[id] == pl.start.settled[id] + if id in open then 0 else 1
  }

  /** No open item is earlier. */
  ghost predicate Next(pl: Plan, open: set<SourceId>, id: SourceId, key: Option<Key>)
    requires ValidPlan(pl) && id in pl.items && open <= pl.items.Keys
  {
    forall x <- open :: Turn(pl, id) <= Turn(pl, x) && (key.Some? ==> !Earlier(pl, key.value, x, id))
  }

  /** The parent folder was there before the pass, and has been created again. */
  predicate Recreated(pl: Plan, open: set<SourceId>, id: SourceId)
    requires ValidPlan(pl) && id in pl.items
  {
    var p := pl.items[id].parentId;
    p.Some? && p.value in pl.start.folderMap && p.value in pl.items && p.value !in open && Created(pl, p.value).Some?
  }

  /** Where the item finds its parent at this stage. */
  function Standing(pl: Plan, open: set<SourceId>, id: SourceId): DriveItem
    requires ValidPlan(pl) && id in pl.items
  {
    if Recreated(pl, open, id) then Created(pl, pl.items[id].parentId.value).value
    else if Home(pl, id).At? then Home(pl, id).folder else Root
  }

  ghost predicate StandsAt(pl: Plan, open: set<SourceId>, id: SourceId, target: Target)
    requires ValidPlan(pl) && id in pl.items
  {
    Steady(pl) && target.Under? ==>
      && target.folder == Standing(pl, open, id)
      && (Recreated(pl, open, id) ==> Grounded(pl, pl.items[id].parentId.value))
  }

  /** A call for an open item, whose parent is where the reference says; it settles the item in turn. */
  ghost predicate InTurn(pl: Plan, s: Pass, e: Event, key: Option<Key>)
    requires ValidPlan(pl)
  {
    && e.Call? && e.env == pl.env && e.f.sourceId in Open(pl, s) && pl.items[e.f.sourceId] == e.f
    && SameRow(pl.start.rows, s.rows, e.f.sourceId)
    && Agrees(pl, ParentOf(s, e.f, e.defer), e.f.sourceId)
    && StandsAt(pl, Open(pl, s), e.f.sourceId, ParentOf(s, e.f, e.defer))
    && (!Process(e.env, s, e.f, e.defer).1.Defer? ==> Next(pl, Open(pl, s), e.f.sourceId, key))
  }

  ghost predicate Orderly(pl: Plan, s: Pass, events: seq<Event>, key: Option<Key>)
    requires ValidPlan(pl)
  {
    events != [] ==>
      var init, e := events[..|events| - 1], events[|events| - 1];
      Orderly(pl, s, init, key) && InTurn(pl, After(s, init), e, key)
  }

  lemma OrderlySnoc(pl: Plan, s: Pass, events: seq<Event>, e: Event, key: Option<Key>)
    requires ValidPlan(pl)
    ensures Orderly(pl, s, events + [e], key) <==>
              Orderly(pl, s, events, key) && InTurn(pl, After(s, events), e, key)
  {
    hide InTurn, After;
    assert (events + [e])[..|events|] == events;
  }

  lemma AfterAll(s: Pass, a: seq<Event>)
    ensures After(s, a + []) == After(s, a) && a + [] == a
  {
    assert a + [] == a;
  }

  lemma {:induction false} OrderlyConcat(pl: Plan, s: Pass, a: seq<Event>, b: seq<Event>, key: Option<Key>)
    requires ValidPlan(pl) && Orderly(pl, s, a, key) && Orderly(pl, After(s, a), b, key)
    ensures Orderly(pl, s, a + b, key)
  {
    hide *;
    if b == [] {
      AfterAll(s, a);
    } else {
      var init, e := b[..|b| - 1], b[|b| - 1];
      assert b == init + [e] && a + b == (a + init) + [e];
      OrderlySnoc(pl, After(s, a), init, e, key);
      OrderlyConcat(pl, s, a, init, key);
      AfterConcat(s, a, init);
      OrderlySnoc(pl, s, a + init, e, key);
    }
  }

  /** A call that defers is one for an item whose parent does not resolve. */
  lemma DefersWhen(pl: Plan, s: Pass, open: set<SourceId>, f: SourceFile)
    requires ValidPlan(pl) && open <= pl.items.Keys && Stage(pl, s, open)
    requires f.sourceId in open && pl.items[f.sourceId] == f
    ensures Process(pl.env, s, f, true).1.Defer? <==> Unresolved(pl, open, f.sourceId)
  {
    hide Home, Fulfilled, NewUploads, Sure;
    if f.parentId.Some? {
      var p := f.parentId.value;
      assert MapsTo(pl, s.folderMap, open, p);
      assert p in s.failed <==> p in pl.items && p !in open && FailedFolder(pl, p);
      if p in pl.items { OpensWhen(pl, p); }
    }
    hide Created, Opens, FailedFolder;
    assert SameRow(pl.start.rows, s.rows, f.sourceId);
  }

  lemma OpensWhen(pl: Plan, id: SourceId)
    requires ValidPlan(pl) && id in pl.items
    ensures Opens(pl, id) <==> Created(pl, id).Some? || FailedFolder(pl, id)
  {
  }

  /** What the clock and the ledger show at a stage of the pass. */
  ghost predicate Timed(pl: Plan, s: Pass, open: set<SourceId>, t: nat)
    requires ValidPlan(pl)
  {
    open <= pl.items.Keys && Stage(pl, s, open) && Ledger(pl, s, open) && Clock(pl, open, t)
  }

  lemma LedgerOpen(pl: Plan, s: Pass, open: set<SourceId>)
    requires open <= pl.items.Keys && Ledger(pl, s, open)
    ensures Open(pl, s) == open
  {
  }

  lemma LedgerCall(pl: Plan, s: Pass, open: set<SourceId>, f: SourceFile, defer: bool)
    requires open <= pl.items.Keys && Ledger(pl, s, open) && f.sourceId in open
    ensures var (s', o) := Process(pl.env, s, f, defer);
            Ledger(pl, s', if o.Defer? then open else open - {f.sourceId})
  {
    hide Attempt;
  }

  /** In the sweep that settles it, the item finds nothing open that is due and earlier. */
  ghost predicate NothingEarlier(pl: Plan, open: set<SourceId>, id: SourceId, t: nat, key: Key)
    requires ValidPlan(pl) && id in pl.items && open <= pl.items.Keys
  {
    GoodKey(pl, key) && forall x <- open :: Turn(pl, x) == t ==> !Earlier(pl, key, x, id)
  }

  lemma DueWhenSettled(pl: Plan, s: Pass, open: set<SourceId>, f: SourceFile, defer: bool, t: nat)
    requires ValidPlan(pl) && Timed(pl, s, open, t) && f.sourceId in open && pl.items[f.sourceId] == f
    requires if defer then t % 2 == 0 else Turn(pl, f.sourceId) == t
    ensures !Process(pl.env, s, f, defer).1.Defer? ==> Turn(pl, f.sourceId) == t
  {
    hide Process, Turn, Stage, Clock, Unresolved;
    if defer {
      DefersWhen(pl, s, open, f);
      if !Unresolved(pl, open, f.sourceId) { ResolvedInTurn(pl, open, f.sourceId, t); }
    }
  }

  lemma LateWhenDeferred(pl: Plan, s: Pass, open: set<SourceId>, f: SourceFile, t: nat, key: Key)
    requires ValidPlan(pl) && Timed(pl, s, open, t) && f.sourceId in open && pl.items[f.sourceId] == f
    requires t % 2 == 0 && NothingEarlier(pl, open, f.sourceId, t, key)
    ensures Process(pl.env, s, f, true).1.Defer? ==> Turn(pl, f.sourceId) > t
  {
    hide Process, Turn, Stage, Unresolved;
    DefersWhen(pl, s, open, f);
    if Unresolved(pl, open, f.sourceId) && Turn(pl, f.sourceId) == t { WaitsInTurn(pl, open, f.sourceId, t); }
  }

  lemma ClockNext(pl: Plan, open: set<SourceId>, id: SourceId, t: nat, key: Option<Key>)
    requires ValidPlan(pl) && open <= pl.items.Keys && Clock(pl, open, t) && id in open && Turn(pl, id) == t
    requires key.Some? ==> NothingEarlier(pl, open, id, t, key.value)
    ensures Next(pl, open, id, key) && Clock(pl, open - {id}, t)
  {
    hide Turn;
  }

  lemma StandsThere(pl: Plan, s: Pass, open: set<SourceId>, f: SourceFile, defer: bool, early: bool)
    requires ValidPlan(pl) && open <= pl.items.Keys && Stage(pl, s, open) && Phase(pl, open, early)
    requires f.sourceId in open && pl.items[f.sourceId] == f
    requires !defer ==> f.parentId.None? || f.parentId.value !in open
    ensures StandsAt(pl, open, f.sourceId, ParentOf(s, f, defer))
  {
    hide Steady, Fulfilled, NewUploads, Placeable, UpToDate;
    if f.parentId.Some? {
      var p := f.parentId.value;
      assert MapsTo(pl, s.folderMap, open, p);
      assert p in s.failed <==> p in pl.items && p !in open && FailedFolder(pl, p);
      if p in pl.items { assert BelowParent(pl, f.sourceId); }
    }
  }

  lemma CallInTurn(pl: Plan, s: Pass, open: set<SourceId>, f: SourceFile, defer: bool, early: bool,
                   t: nat, key: Option<Key>)
    requires ValidPlan(pl) && Timed(pl, s, open, t) && Phase(pl, open, early)
    requires f.sourceId in open && pl.items[f.sourceId] == f
    requires (!defer ==> f.parentId.None? || f.parentId.value !in open) && (early ==> defer)
    requires if defer then t % 2 == 0 else Turn(pl, f.sourceId) == t
    requires key.Some? ==> NothingEarlier(pl, open, f.sourceId, t, key.value)
    ensures InTurn(pl, s, Call(pl.env, f, defer), key)
    ensures var (s', o) := Process(pl.env, s, f, defer);
            && Timed(pl, s', if o.Defer? then open else open - {f.sourceId}, t)
            && (o.Defer? ==> defer)
            && (key.Some? && o.Defer? ==> Turn(pl, f.sourceId) > t)
  {
    ParentMatches(pl, s, open, f, defer, early);
    StandsThere(pl, s, open, f, defer, early);
    assert SameRow(pl.start.rows, s.rows, f.sourceId);
    hide Process, Turn, Stage, Phase, ParentOf, NothingEarlier, Home, Placeable, Ledger, Next, Open, Clock, Sure, SameRow, Waits, StandsAt;
    ProcessStage(pl, s, open, f, defer, early);
    ProcessDefers(pl.env, s, f, defer);
    LedgerOpen(pl, s, open);
    LedgerCall(pl, s, open, f, defer);
    DueWhenSettled(pl, s, open, f, defer, t);
    if !Process(pl.env, s, f, defer).1.Defer? {
      ClockNext(pl, open, f.sourceId, t, key);
    } else if key.Some? {
      LateWhenDeferred(pl, s, open, f, t, key.value);
    }
  }

  // ----- sweeps ----------------------------------------------------------------------------

  ghost predicate Swept(pl: Plan, s: Pass, open: set<SourceId>, batch: seq<SourceFile>, r: Sweep,
                        events: seq<Event>, t: nat, key: Option<Key>)
    requires ValidPlan(pl) && open <= pl.items.Keys
  {
    && After(s, events) == r.pass && Orderly(pl, s, events, key)
    && Timed(pl, r.pass, StillOpen(open, batch, r.still), t)
    && (key.Some? ==> Late(pl, r.still, t))
  }

  ghost predicate Late(pl: Plan, batch: seq<SourceFile>, t: nat)
    requires ValidPlan(pl)
  {
    forall f <- batch :: f.sourceId in pl.items && Turn(pl, f.sourceId) > t
  }

  lemma {:induction false} LateIds(pl: Plan, batch: seq<SourceFile>, t: nat, id: SourceId)
    requires ValidPlan(pl) && Late(pl, batch, t) && id in Ids(batch)
    ensures id in pl.items && Turn(pl, id) > t
  {
    hide Turn;
    var f := MemberOf(batch, id);
  }

  /** The items of a sweep are due: in an odd turn all of them, in an even one those that resolve. */
  ghost predicate Due(pl: Plan, batch: seq<SourceFile>, defer: bool, t: nat)
    requires ValidPlan(pl) && Drawn(pl, batch)
  {
    if defer then t % 2 == 0 else forall f <- batch :: Turn(pl, f.sourceId) == t
  }

  /** The batch is sorted, and nothing open is missing from it. */
  ghost predicate InLine(pl: Plan, open: set<SourceId>, batch: seq<SourceFile>, t: nat, key: Key)
    requires ValidPlan(pl) && Drawn(pl, batch) && open <= pl.items.Keys
  {
    GoodKey(pl, key) && Sorted(pl, key, batch) && Downward(pl, open, batch, t, key)
  }

  /** What is open, due and earlier than the next item would be among those deferred before it. */
  lemma NothingEarlierNow(pl: Plan, open: set<SourceId>, init: seq<SourceFile>, f: SourceFile, still: seq<SourceFile>,
                          t: nat, key: Key)
    requires ValidPlan(pl) && Drawn(pl, init + [f]) && open <= pl.items.Keys && InLine(pl, open, init + [f], t, key)
    requires Late(pl, still, t) && Distinct(init + [f])
    ensures StillOpen(open, init, still) <= pl.items.Keys && f.sourceId in pl.items
    ensures NothingEarlier(pl, StillOpen(open, init, still), f.sourceId, t, key)
  {
    hide Turn, Sorted, Ids, Distinct;
    assert f in init + [f];
    Snoc(init, f);
    forall x <- StillOpen(open, init, still) | Turn(pl, x) == t
      ensures !Earlier(pl, key, x, f.sourceId)
    {
      if Earlier(pl, key, x, f.sourceId) {
        assert x in Ids(init);
        LateIds(pl, still, t, x);
      }
    }
  }

  lemma InLineInit(pl: Plan, open: set<SourceId>, init: seq<SourceFile>, f: SourceFile, t: nat, key: Key)
    requires ValidPlan(pl) && Drawn(pl, init + [f]) && open <= pl.items.Keys && InLine(pl, open, init + [f], t, key)
    ensures Drawn(pl, init) && InLine(pl, open, init, t, key)
  {
    hide Sorted, Downward, Drawn;
    DownwardInit(pl, open, init, f, t, key);
  }

  lemma DueInit(pl: Plan, init: seq<SourceFile>, f: SourceFile, defer: bool, t: nat)
    requires ValidPlan(pl) && Drawn(pl, init + [f]) && Due(pl, init + [f], defer, t)
    ensures Drawn(pl, init) && Due(pl, init, defer, t)
    ensures f.sourceId in pl.items && pl.items[f.sourceId] == f
    ensures if defer then t % 2 == 0 else Turn(pl, f.sourceId) == t
  {
    hide Turn;
    assert f in init + [f];
    assert forall g <- init :: g in init + [f];
  }

  lemma SweptNothing(pl: Plan, s: Pass, open: set<SourceId>, defer: bool, t: nat, key: Option<Key>)
    requires ValidPlan(pl) && Timed(pl, s, open, t)
    ensures Swept(pl, s, open, [], RunBatch(pl.env, s, [], defer), [], t, key)
  {
    hide Stage, Ledger, Clock;
    assert StillOpen(open, [], []) == open;
  }

  lemma SweptCall(pl: Plan, s: Pass, open: set<SourceId>, init: seq<SourceFile>, f: SourceFile, r: Sweep,
                  events: seq<Event>, defer: bool, t: nat, key: Option<Key>)
    requires ValidPlan(pl) && open <= pl.items.Keys && Swept(pl, s, open, init, r, events, t, key)
    requires f.sourceId in open && f.sourceId !in Ids(init) && pl.items[f.sourceId] == f
    requires Ids(r.still) <= Ids(init) && InTurn(pl, r.pass, Call(pl.env, f, defer), key)
    requires var (s', o) := Process(pl.env, r.pass, f, defer);
             var open' := StillOpen(open, init, r.still);
             && Timed(pl, s', if o.Defer? then open' else open' - {f.sourceId}, t)
             && (key.Some? && o.Defer? ==> Turn(pl, f.sourceId) > t)
    ensures Swept(pl, s, open, init + [f], Record(r, f, Process(pl.env, r.pass, f, defer)),
                  events + [Call(pl.env, f, defer)], t, key)
  {
    hide Process, Timed, Turn, Ids, InTurn, After, Orderly;
    AfterStep(s, events, Call(pl.env, f, defer));
    OrderlySnoc(pl, s, events, Call(pl.env, f, defer), key);
    Snoc(init, f);
    Snoc(r.still, f);
    var open', o := StillOpen(open, init, r.still), Process(pl.env, r.pass, f, defer).1;
    if o.Defer? {
      assert StillOpen(open, init + [f], r.still + [f]) == open';
    } else {
      assert StillOpen(open, init + [f], r.still) == open' - {f.sourceId};
    }
  }

  ghost predicate SweepReady(pl: Plan, s: Pass, open: set<SourceId>, batch: seq<SourceFile>, defer: bool, early: bool,
                             t: nat, key: Option<Key>)
    requires ValidPlan(pl)
  {
    && Timed(pl, s, open, t) && Phase(pl, open, early)
    && Distinct(batch) && Drawn(pl, batch) && Ids(batch) <= open
    && (!defer ==> ParentsSettled(batch, open)) && (early ==> defer)
    && Due(pl, batch, defer, t) && (key.Some? ==> InLine(pl, open, batch, t, key.value))
  }

  lemma ReadyInit(pl: Plan, s: Pass, open: set<SourceId>, init: seq<SourceFile>, f: SourceFile, defer: bool, early: bool,
                  t: nat, key: Option<Key>)
    requires ValidPlan(pl) && SweepReady(pl, s, open, init + [f], defer, early, t, key)
    ensures SweepReady(pl, s, open, init, defer, early, t, key)
    ensures f.sourceId in open && f.sourceId !in Ids(init) && pl.items[f.sourceId] == f
    ensures if defer then t % 2 == 0 else Turn(pl, f.sourceId) == t
    ensures !defer ==> f.parentId.None? || f.parentId.value !in open
  {
    hide Turn, Stage, Ledger, Clock, Phase, InLine, Due, Ids, Distinct, Drawn;
    Snoc(init, f);
    DueInit(pl, init, f, defer, t);
    if key.Some? { InLineInit(pl, open, init, f, t, key.value); }
    assert f in init + [f];
    assert forall g <- init :: g in init + [f];
  }

  lemma {:induction false} SweepTurns(pl: Plan, s: Pass, open: set<SourceId>, batch: seq<SourceFile>, defer: bool, early: bool,
                                      t: nat, key: Option<Key>) returns (events: seq<Event>)
    requires ValidPlan(pl) && SweepReady(pl, s, open, batch, defer, early, t, key)
    ensures open <= pl.items.Keys && Swept(pl, s, open, batch, RunBatch(pl.env, s, batch, defer), events, t, key)
  {
    assert Timed(pl, s, open, t);
    if batch == [] {
      events := [];
      SweptNothing(pl, s, open, defer, t, key);
    } else {
      hide Stage, Phase, Turn, RunBatch, Process, Ids, Distinct, After, Orderly, InTurn, Record, Ledger, Clock, InLine, Due, Sorted, Downward, NothingEarlier, Waits, Drawn, Late;
      var init, f := batch[..|batch| - 1], batch[|batch| - 1];
      assert batch == init + [f];
      ReadyInit(pl, s, open, init, f, defer, early, t, key);
      RunBatchStep(pl.env, s, init, f, defer);
      events := SweepTurns(pl, s, open, init, defer, early, t, key);
      SweepStage(pl, s, open, init, defer, early);
      var r := RunBatch(pl.env, s, init, defer);
      var open' := StillOpen(open, init, r.still);
      if key.Some? { NothingEarlierNow(pl, open, init, f, r.still, t, key.value); }
      CallInTurn(pl, r.pass, open', f, defer, early, t, key);
      SweptCall(pl, s, open, init, f, r, events, defer, t, key);
      events := events + [Call(pl.env, f, defer)];
    }
  }

  // ----- sublists of a sorted listing ------------------------------------------------------

  lemma SortedAppend(pl: Plan, key: Key, batch: seq<SourceFile>, f: SourceFile, sub: seq<SourceFile>)
    requires ValidPlan(pl) && Drawn(pl, batch + [f]) && Sorted(pl, key, batch + [f])
    requires (forall g <- sub :: g in batch) && Drawn(pl, sub) && Sorted(pl, key, sub)
    ensures Drawn(pl, sub + [f]) && Sorted(pl, key, sub + [f])
  {
    hide Earlier;
    SortedSnoc(pl, key, batch, f);
    assert f in batch + [f];
    assert Drawn(pl, sub + [f]);
    SortedSnoc(pl, key, sub, f);
  }

  lemma OrphansSortedStep(init: seq<SourceFile>, f: SourceFile, pending: set<SourceId>)
    ensures ParentNotIn([], pending) == [] && forall g <- ParentNotIn(init, pending) :: g in init
    ensures ParentNotIn(init + [f], pending) == ParentNotIn(init, pending)
            || ParentNotIn(init + [f], pending) == ParentNotIn(init, pending) + [f]
  {
    assert (init + [f])[..|init|] == init;
    SublistsDrawn(init, pending);
  }

  lemma {:induction false} OrphansSorted(pl: Plan, key: Key, batch: seq<SourceFile>, pending: set<SourceId>)
    requires ValidPlan(pl) && Drawn(pl, batch) && Sorted(pl, key, batch)
    ensures Drawn(pl, ParentNotIn(batch, pending)) && Sorted(pl, key, ParentNotIn(batch, pending))
  {
    if batch != [] {
      hide Earlier, Sorted, ParentNotIn;
      var init, f := batch[..|batch| - 1], batch[|batch| - 1];
      assert batch == init + [f];
      OrphansSortedStep(init, f, pending);
      SortedSnoc(pl, key, init, f);
      OrphansSorted(pl, key, init, pending);
      SortedAppend(pl, key, init, f, ParentNotIn(init, pending));
    }
  }

  lemma RestSortedStep(init: seq<SourceFile>, f: SourceFile, ids: set<SourceId>)
    ensures Without([], ids) == [] && forall g <- Without(init, ids) :: g in init
    ensures Without(init + [f], ids) == Without(init, ids)
            || Without(init + [f], ids) == Without(init, ids) + [f]
  {
    assert (init + [f])[..|init|] == init;
    SublistsDrawn(init, ids);
  }

  lemma {:induction false} RestSorted(pl: Plan, key: Key, batch: seq<SourceFile>, ids: set<SourceId>)
    requires ValidPlan(pl) && Drawn(pl, batch) && Sorted(pl, key, batch)
    ensures Drawn(pl, Without(batch, ids)) && Sorted(pl, key, Without(batch, ids))
  {
    if batch != [] {
      hide Earlier, Sorted, Without;
      var init, f := batch[..|batch| - 1], batch[|batch| - 1];
      assert batch == init + [f];
      RestSortedStep(init, f, ids);
      SortedSnoc(pl, key, init, f);
      RestSorted(pl, key, init, ids);
      SortedAppend(pl, key, init, f, Without(init, ids));
    }
  }

  lemma {:induction false} SweepSorted(pl: Plan, key: Key, s: Pass, batch: seq<SourceFile>, defer: bool)
    requires ValidPlan(pl) && Drawn(pl, batch) && Sorted(pl, key, batch)
    ensures var still := RunBatch(pl.env, s, batch, defer).still;
            (forall f <- still :: f in batch) && Drawn(pl, still) && Sorted(pl, key, still)
  {
    if batch != [] {
      var init, f := batch[..|batch| - 1], batch[|batch| - 1];
      assert batch == init + [f];
      RunBatchStep(pl.env, s, init, f, defer);
      hide Earlier, Sorted, RunBatch, Process;
      SortedSnoc(pl, key, init, f);
      SweepSorted(pl, key, s, init, defer);
      SortedAppend(pl, key, init, f, RunBatch(pl.env, s, init, defer).still);
    }
  }

  // ----- rounds ----------------------------------------------------------------------------

  /** A sweep that settles nothing shows that nothing resolves. */
  lemma {:induction false} QuietSweep(pl: Plan, s: Pass, open: set<SourceId>, batch: seq<SourceFile>, f: SourceFile)
    requires ValidPlan(pl) && open <= pl.items.Keys && Stage(pl, s, open) && Phase(pl, open, false)
    requires Distinct(batch) && Drawn(pl, batch) && Ids(batch) <= open
    requires |RunBatch(pl.env, s, batch, true).still| == |batch| && f in batch
    ensures f.sourceId in pl.items && Unresolved(pl, open, f.sourceId)
  {
    hide Stage, Phase, Waits, RunBatch, Process, Distinct, Unresolved, Ids;
    var init, g := batch[..|batch| - 1], batch[|batch| - 1];
    assert batch == init + [g];
    RunBatchStep(pl.env, s, init, g, true);
    Snoc(init, g);
    var before := RunBatch(pl.env, s, init, true);
    assert Process(pl.env, before.pass, g, true).1.Defer? && |before.still| == |init|;
    if f in init {
      QuietSweep(pl, s, open, init, f);
    } else {
      SweepStage(pl, s, open, init, true, false);
      SweepCounts(pl.env, s, init, true);
      assert StillOpen(open, init, init) == open;
      DefersWhen(pl, before.pass, open, g);
    }
  }

  ghost predicate Front(pl: Plan, batch: seq<SourceFile>, key: Key)
    requires ValidPlan(pl) && Drawn(pl, batch)
  {
    GoodKey(pl, key) && Sorted(pl, key, batch)
  }

  ghost predicate RoundReady(pl: Plan, s: Pass, deferred: seq<SourceFile>, t: nat, key: Option<Key>)
    requires ValidPlan(pl)
  {
    && Timed(pl, s, Ids(deferred), t) && Phase(pl, Ids(deferred), false) && t % 2 == 0
    && Distinct(deferred) && Drawn(pl, deferred) && (key.Some? ==> Front(pl, deferred, key.value))
  }

  lemma ReadyToSweep(pl: Plan, s: Pass, deferred: seq<SourceFile>, t: nat, key: Option<Key>)
    requires ValidPlan(pl) && RoundReady(pl, s, deferred, t, key)
    ensures SweepReady(pl, s, Ids(deferred), deferred, true, false, t, key)
  {
    hide Stage, Ledger, Clock, Phase, Distinct, Sorted, Ids, Turn;
  }

  ghost predicate AllWait(pl: Plan, open: set<SourceId>, t: nat)
    requires ValidPlan(pl) && open <= pl.items.Keys
  {
    forall id <- open :: Unresolved(pl, open, id) && Turn(pl, id) > t
  }

  lemma QuietRound(pl: Plan, s: Pass, deferred: seq<SourceFile>, t: nat, key: Option<Key>)
    requires ValidPlan(pl) && RoundReady(pl, s, deferred, t, key)
    requires |RunBatch(pl.env, s, deferred, true).still| == |deferred|
    ensures Ids(deferred) <= pl.items.Keys && AllWait(pl, Ids(deferred), t)
  {
    hide RunBatch, Stage, Ledger, Phase, Distinct, Turn, Unresolved, Front, Ids;
    var open := Ids(deferred);
    forall id <- open ensures Unresolved(pl, open, id) {
      var f := MemberOf(deferred, id);
      QuietSweep(pl, s, open, deferred, f);
    }
    forall id <- open ensures Turn(pl, id) > t {
      TurnOver(pl, open, id, t);
    }
  }

  /** The orphans of the open items are those due in the next turn. */
  lemma OrphansDue(pl: Plan, deferred: seq<SourceFile>, t: nat)
    requires ValidPlan(pl) && Drawn(pl, deferred) && deferred != [] && Ids(deferred) <= pl.items.Keys
    requires Clock(pl, Ids(deferred), t) && t % 2 == 0 && AllWait(pl, Ids(deferred), t)
    ensures Drawn(pl, Orphans(deferred)) && Due(pl, Orphans(deferred), false, t + 1)
    ensures forall id <- Ids(deferred) :: id in Ids(Orphans(deferred)) <==> Turn(pl, id) == t + 1
    ensures Clock(pl, Ids(deferred), t + 1)
    ensures Clock(pl, Ids(deferred) - Ids(Orphans(deferred)), t + 2)
  {
    var open, orphans := Ids(deferred), Orphans(deferred);
    OrphansSettled(pl, deferred);
    hide Turn, Unresolved, Ids, Home;
    forall f <- orphans ensures Turn(pl, f.sourceId) == t + 1 {
      IdOf(orphans, f);
      OrphanTurn(pl, open, f.sourceId, t);
    }
    forall id <- open ensures id in Ids(orphans) <==> Turn(pl, id) == t + 1 {
      OrphanTurn(pl, open, id, t);
      if id in Ids(orphans) {
        var f := MemberOf(orphans, id);
      } else if Turn(pl, id) == t + 1 {
        var f := MemberOf(deferred, id);
        OrphanParents(deferred, open);
        assert f in ParentNotIn(deferred, open);
        IdOf(orphans, f);
      }
    }
    forall id <- open ensures Turn(pl, id) >= t + 1 { OrphanTurn(pl, open, id, t); }
  }

  lemma OrphansFront(pl: Plan, deferred: seq<SourceFile>, t: nat, key: Key)
    requires ValidPlan(pl) && Drawn(pl, deferred) && Front(pl, deferred, key) && Ids(deferred) <= pl.items.Keys
    requires Drawn(pl, Orphans(deferred))
    requires forall id <- Ids(deferred) :: id in Ids(Orphans(deferred)) <==> Turn(pl, id) == t
    ensures InLine(pl, Ids(deferred), Orphans(deferred), t, key)
  {
    hide Ids, Earlier, Turn;
    OrphansSorted(pl, key, deferred, Ids(deferred));
  }

  lemma OrphansReady(pl: Plan, s: Pass, deferred: seq<SourceFile>, t: nat, key: Option<Key>)
    requires ValidPlan(pl) && RoundReady(pl, s, deferred, t, key) && deferred != []
    requires Ids(deferred) <= pl.items.Keys && AllWait(pl, Ids(deferred), t)
    ensures SweepReady(pl, s, Ids(deferred), Orphans(deferred), false, false, t + 1, key)
  {
    hide Stage, Ledger, Clock, Phase, Distinct, Turn, AllWait, Front, InLine, Due, Ids, Orphans;
    OrphansDue(pl, deferred, t);
    OrphansSettled(pl, deferred);
    OrphansLeave(deferred);
    if key.Some? { OrphansFront(pl, deferred, t + 1, key.value); }
  }

  lemma RestReady(pl: Plan, s: Pass, deferred: seq<SourceFile>, second: Sweep, events: seq<Event>, t: nat, key: Option<Key>)
    requires ValidPlan(pl) && RoundReady(pl, s, deferred, t, key) && deferred != []
    requires Ids(deferred) <= pl.items.Keys && AllWait(pl, Ids(deferred), t)
    requires second == RunBatch(pl.env, s, Orphans(deferred), false)
    requires Swept(pl, s, Ids(deferred), Orphans(deferred), second, events, t + 1, key)
    ensures RoundReady(pl, second.pass, Without(deferred, Ids(Orphans(deferred))), t + 2, key)
  {
    hide Stage, Ledger, Clock, Phase, Distinct, Turn, AllWait, Sorted, Ids, Orphans, RunBatch, Orderly, After, Late;
    OrphansDue(pl, deferred, t);
    OrphanStage(pl, s, deferred);
    SweepCounts(pl.env, s, Orphans(deferred), false);
    IdsOfNothing();
    assert StillOpen(Ids(deferred), Orphans(deferred), []) == Ids(Without(deferred, Ids(Orphans(deferred))));
    if key.Some? { RestSorted(pl, key.value, deferred, Ids(Orphans(deferred))); }
  }

  lemma IdsOfNothing()
    ensures Ids([]) == {}
  {
  }

  lemma SweepLeavesReady(pl: Plan, s: Pass, deferred: seq<SourceFile>, r: Sweep, events: seq<Event>, t: nat, key: Option<Key>)
    requires ValidPlan(pl) && RoundReady(pl, s, deferred, t, key)
    requires r == RunBatch(pl.env, s, deferred, true)
    requires Ids(deferred) <= pl.items.Keys && Swept(pl, s, Ids(deferred), deferred, r, events, t, key)
    ensures RoundReady(pl, r.pass, r.still, t, key)
  {
    hide Stage, Ledger, Clock, Phase, Distinct, Turn, Sorted, Ids, RunBatch, Orderly, After, Late, Waits;
    SweepStage(pl, s, Ids(deferred), deferred, true, false);
    SweepDistinct(pl.env, s, deferred, true);
    assert StillOpen(Ids(deferred), deferred, r.still) == Ids(r.still);
    if key.Some? { SweepSorted(pl, key.value, s, deferred, true); }
  }

  lemma OrphanTurns(pl: Plan, s: Pass, deferred: seq<SourceFile>, t: nat, key: Option<Key>)
    returns (events: seq<Event>)
    requires ValidPlan(pl) && RoundReady(pl, s, deferred, t, key) && deferred != []
    requires Ids(deferred) <= pl.items.Keys && AllWait(pl, Ids(deferred), t)
    ensures var second := RunBatch(pl.env, s, Orphans(deferred), false);
            && After(s, events) == second.pass && Orderly(pl, s, events, key)
            && RoundReady(pl, second.pass, Without(deferred, Ids(Orphans(deferred))), t + 2, key)
  {
    hide RunBatch, RoundReady, SweepReady, Swept, AllWait, Orphans, Ids, After, Orderly;
    OrphansReady(pl, s, deferred, t, key);
    var second := RunBatch(pl.env, s, Orphans(deferred), false);
    events := SweepTurns(pl, s, Ids(deferred), Orphans(deferred), false, false, t + 1, key);
    RestReady(pl, s, deferred, second, events, t, key);
    SweptMeans(pl, s, Ids(deferred), Orphans(deferred), second, events, t + 1, key);
  }

  lemma RoundIs(env: Env, s: Pass, deferred: seq<SourceFile>)
    requires deferred != []
    ensures var sweep, r := RunBatch(env, s, deferred, true), OneRound(env, s, deferred);
            if |sweep.still| == |deferred| then
              var second := RunBatch(env, sweep.pass, Orphans(sweep.still), false);
              r == Sweep(second.pass, Without(sweep.still, Ids(Orphans(sweep.still))), sweep.failures + second.failures)
            else r == sweep
  {
    hide RunBatch;
  }

  lemma SweepRound(pl: Plan, s: Pass, deferred: seq<SourceFile>, t: nat, key: Option<Key>)
    returns (events: seq<Event>)
    requires ValidPlan(pl) && RoundReady(pl, s, deferred, t, key)
    ensures var sweep := RunBatch(pl.env, s, deferred, true);
            && After(s, events) == sweep.pass && Orderly(pl, s, events, key)
            && RoundReady(pl, sweep.pass, sweep.still, t, key)
  {
    assert Ids(deferred) <= pl.items.Keys;
    hide *;
    ReadyToSweep(pl, s, deferred, t, key);
    events := SweepTurns(pl, s, Ids(deferred), deferred, true, false, t, key);
    var sweep := RunBatch(pl.env, s, deferred, true);
    SweptMeans(pl, s, Ids(deferred), deferred, sweep, events, t, key);
    SweepLeavesReady(pl, s, deferred, sweep, events, t, key);
  }

  lemma TwoSweepRound(pl: Plan, s: Pass, deferred: seq<SourceFile>, t: nat, key: Option<Key>)
    returns (events: seq<Event>)
    requires ValidPlan(pl) && RoundReady(pl, s, deferred, t, key) && deferred != []
    requires RunBatch(pl.env, s, deferred, true).still == deferred
    ensures var sweep := RunBatch(pl.env, s, deferred, true);
            var second := RunBatch(pl.env, sweep.pass, Orphans(deferred), false);
            && After(s, events) == second.pass && Orderly(pl, s, events, key)
            && RoundReady(pl, second.pass, Without(deferred, Ids(Orphans(deferred))), t + 2, key)
  {
    hide *;
    events := SweepRound(pl, s, deferred, t, key);
    QuietRound(pl, s, deferred, t, key);
    var sweep := RunBatch(pl.env, s, deferred, true);
    var second := OrphanTurns(pl, sweep.pass, deferred, t, key);
    AfterConcat(s, events, second);
    OrderlyConcat(pl, s, events, second, key);
    events := events + second;
  }

  lemma RoundTurns(pl: Plan, s: Pass, deferred: seq<SourceFile>, t: nat, key: Option<Key>)
    returns (events: seq<Event>, t': nat)
    requires ValidPlan(pl) && RoundReady(pl, s, deferred, t, key) && deferred != []
    ensures var r := OneRound(pl.env, s, deferred);
            && After(s, events) == r.pass && Orderly(pl, s, events, key)
            && RoundReady(pl, r.pass, r.still, t', key)
  {
    RoundIs(pl.env, s, deferred);
    hide *;
    SweepCounts(pl.env, s, deferred, true);
    if |RunBatch(pl.env, s, deferred, true).still| == |deferred| {
      events := TwoSweepRound(pl, s, deferred, t, key);
      t' := t + 2;
    } else {
      events := SweepRound(pl, s, deferred, t, key);
      t' := t;
    }
  }

  lemma {:induction false} RoundsTurns(pl: Plan, s: Pass, deferred: seq<SourceFile>, t: nat, key: Option<Key>)
    returns (events: seq<Event>)
    requires ValidPlan(pl) && RoundReady(pl, s, deferred, t, key)
    ensures var s' := Rounds(pl.env, s, deferred).0;
            After(s, events) == s' && Orderly(pl, s, events, key) && Ledger(pl, s', {})
    decreases |deferred|
  {
    hide Stage, Clock, Phase, OneRound, Distinct, Turn, After, InTurn, Front;
    if deferred == [] {
      events := [];
      AfterNothing(s, events);
      IdsOfNothing();
    } else {
      hide Orderly, Rounds, RoundReady;
      var r := OneRound(pl.env, s, deferred);
      var t';
      RoundsStep(pl.env, s, deferred);
      events, t' := RoundTurns(pl, s, deferred, t, key);
      var rest := RoundsTurns(pl, r.pass, r.still, t', key);
      AfterConcat(s, events, rest);
      OrderlyConcat(pl, s, events, rest, key);
      events := events + rest;
    }
  }

  /** Main result. A pass settles the items of an acyclic batch by turn, whatever the listing; and if the
      listing is sorted, each turn by key. */
  lemma PassTurns(pl: Plan, batch: seq<SourceFile>, key: Option<Key>) returns (events: seq<Event>)
    requires ValidPlan(pl) && Lists(pl, batch) && (key.Some? ==> Front(pl, batch, key.value))
    ensures var s' := Migrate(pl.env, pl.start, batch).0;
            After(pl.start, events) == s' && Orderly(pl, pl.start, events, key) && Ledger(pl, s', {})
  {
    FirstReady(pl, batch, key);
    var first := RunBatch(pl.env, pl.start, batch, true);
    var open := pl.items.Keys;
    hide RunBatch, Rounds, Orderly, After, RoundReady, SweepReady, Swept;
    events := SweepTurns(pl, pl.start, open, batch, true, true, 0, key);
    FirstLeavesReady(pl, batch, first, events, key);
    var rest := RoundsTurns(pl, first.pass, first.still, 0, key);
    MigrateIs(pl.env, pl.start, batch);
    SweptMeans(pl, pl.start, open, batch, first, events, 0, key);
    AfterConcat(pl.start, events, rest);
    OrderlyConcat(pl, pl.start, events, rest, key);
    events := events + rest;
  }

  lemma SweptMeans(pl: Plan, s: Pass, open: set<SourceId>, batch: seq<SourceFile>, r: Sweep,
                   events: seq<Event>, t: nat, key: Option<Key>)
    requires ValidPlan(pl) && open <= pl.items.Keys && Swept(pl, s, open, batch, r, events, t, key)
    ensures After(s, events) == r.pass && Orderly(pl, s, events, key)
  {
    hide Timed, Late, After, Orderly;
  }

  lemma FirstReady(pl: Plan, batch: seq<SourceFile>, key: Option<Key>)
    requires ValidPlan(pl) && Lists(pl, batch) && (key.Some? ==> Front(pl, batch, key.value))
    ensures SweepReady(pl, pl.start, pl.items.Keys, batch, true, true, 0, key)
  {
    hide Ids, Distinct, Turn, Sorted, Earlier, Fulfilled, Created, Grounded, FailedFolder, Uploads, Sure;
  }

  lemma FirstLeavesReady(pl: Plan, batch: seq<SourceFile>, first: Sweep, events: seq<Event>, key: Option<Key>)
    requires ValidPlan(pl) && Lists(pl, batch) && (key.Some? ==> Front(pl, batch, key.value))
    requires first == RunBatch(pl.env, pl.start, batch, true)
    requires SweepReady(pl, pl.start, pl.items.Keys, batch, true, true, 0, key)
    requires Swept(pl, pl.start, pl.items.Keys, batch, first, events, 0, key)
    ensures RoundReady(pl, first.pass, first.still, 0, key)
  {
    hide RunBatch, Stage, Ledger, Clock, Distinct, Turn, Sorted, Ids, After, Orderly, Late, Waits, Grounded, Created, Due, InLine;
    SweepStage(pl, pl.start, pl.items.Keys, batch, true, true);
    SweepDistinct(pl.env, pl.start, batch, true);
    var open := Ids(first.still);
    assert StillOpen(pl.items.Keys, batch, first.still) == open;
    forall id <- open ensures Waits(pl, pl.items[id]) {
      var f := MemberOf(first.still, id);
    }
    if key.Some? { SweepSorted(pl, key.value, pl.start, batch, true); }
  }

  // ----- a listing that lets an item go first ----------------------------------------------

  lemma {:induction false} Latest(pl: Plan, ids: set<SourceId>, key: Key) returns (m: SourceId)
    requires ValidPlan(pl) && ids <= pl.items.Keys && ids != {}
    ensures m in ids && forall g <- ids :: !Earlier(pl, key, m, g)
  {
    hide Turn;
    var one :| one in ids;
    var rest := ids - {one};
    m := one;
    if rest != {} {
      var other := Latest(pl, rest, key);
      m := if Earlier(pl, key, other, one) then one else other;
    }
    forall g <- ids ensures !Earlier(pl, key, m, g) {
      assert g == one || g in rest;
    }
  }

  lemma {:induction false} SortedListing(pl: Plan, ids: set<SourceId>, key: Key) returns (batch: seq<SourceFile>)
    requires ValidPlan(pl) && ids <= pl.items.Keys
    ensures Distinct(batch) && Drawn(pl, batch) && Ids(batch) == ids && Sorted(pl, key, batch)
  {
    if ids == {} {
      batch := [];
    } else {
      hide Earlier, Sorted, Distinct, Ids;
      var m := Latest(pl, ids, key);
      var rest := SortedListing(pl, ids - {m}, key);
      Snoc(rest, pl.items[m]);
      batch := rest + [pl.items[m]];
      forall g <- rest ensures !Earlier(pl, key, m, g.sourceId) { IdOf(rest, g); }
      SortedSnoc(pl, key, rest, pl.items[m]);
    }
  }

  /** A parent that the item waits for, at any height. */
  predicate Above(pl: Plan, x: SourceId, y: SourceId)
    requires ValidPlan(pl) && x in pl.items
    decreases pl.rank[x]
  {
    y == x ||
    var p := pl.items[x].parentId;
    p.Some? && p.value in pl.items && Awaits(pl, x, p.value) && Opens(pl, p.value)
    && assert BelowParent(pl, x); Above(pl, p.value, y)
  }

  /** x comes before all that is due in its turn, but for the parents it waits for. */
  ghost function FirstKey(pl: Plan, x: SourceId): Key
    requires ValidPlan(pl) && x in pl.items
  {
    (y: SourceId) =>
      if y !in pl.items then 0 else if Above(pl, x, y) then pl.rank[y] else pl.rank[y] + pl.rank[x] + 1
  }

  lemma {:induction false} AboveStep(pl: Plan, x: SourceId, y: SourceId, p: SourceId)
    requires ValidPlan(pl) && x in pl.items && y in pl.items && Above(pl, x, y)
    requires p in pl.items && Awaits(pl, y, p) && Opens(pl, p)
    ensures Above(pl, x, p)
    decreases pl.rank[x]
  {
    hide Opens, NeedsNoParent;
    if y == x {
      assert BelowParent(pl, x) && Above(pl, p, p);
    } else {
      assert BelowParent(pl, x);
      AboveStep(pl, pl.items[x].parentId.value, y, p);
    }
  }

  lemma {:induction false} AboveRank(pl: Plan, x: SourceId, y: SourceId)
    requires ValidPlan(pl) && x in pl.items && Above(pl, x, y)
    ensures y in pl.items && pl.rank[y] <= pl.rank[x] && (y != x ==> Opens(pl, y))
    decreases pl.rank[x]
  {
    hide Opens, Awaits;
    if y != x {
      assert BelowParent(pl, x);
      AboveRank(pl, pl.items[x].parentId.value, y);
    }
  }

  lemma SameTurnOpens(pl: Plan, id: SourceId, p: SourceId)
    requires ValidPlan(pl) && id in pl.items && p in pl.items && Awaits(pl, id, p) && Turn(pl, p) == Turn(pl, id)
    ensures Opens(pl, p) && pl.rank[p] < pl.rank[id]
  {
    hide Opens;
    assert BelowParent(pl, id);
  }

  lemma FirstKeyIsGood(pl: Plan, x: SourceId)
    requires ValidPlan(pl) && x in pl.items
    ensures GoodKey(pl, FirstKey(pl, x))
  {
    hide Turn, Opens, Awaits, Above;
    var key := FirstKey(pl, x);
    forall id <- pl.items, p <- pl.items | Awaits(pl, id, p) && Turn(pl, p) == Turn(pl, id)
      ensures key(p) < key(id)
    {
      SameTurnOpens(pl, id, p);
      if Above(pl, x, id) { AboveStep(pl, x, id, p); }
      if Above(pl, x, p) { AboveRank(pl, x, p); }
    }
  }

  lemma ComesFirst(pl: Plan, x: SourceId, y: SourceId)
    requires ValidPlan(pl) && x in pl.items && y in pl.items && Turn(pl, x) <= Turn(pl, y) && !Above(pl, x, y)
    ensures Earlier(pl, FirstKey(pl, x), x, y)
  {
    hide Turn;
    assert Above(pl, x, x);
  }

  /** A listing that settles the items by turn, and in a turn by key. */
  lemma KeyListing(pl: Plan, key: Key) returns (batch: seq<SourceFile>, events: seq<Event>)
    requires ValidPlan(pl) && GoodKey(pl, key)
    ensures Lists(pl, batch)
    ensures var s' := Migrate(pl.env, pl.start, batch).0;
            After(pl.start, events) == s' && Orderly(pl, pl.start, events, Some(key)) && Ledger(pl, s', {})
  {
    hide Turn, Earlier, GoodKey, Sorted;
    batch := SortedListing(pl, pl.items.Keys, key);
    assert Front(pl, batch, key);
    hide *;
    events := PassTurns(pl, batch, Some(key));
  }

  lemma FirstListing(pl: Plan, x: SourceId) returns (batch: seq<SourceFile>, events: seq<Event>)
    requires ValidPlan(pl) && x in pl.items
    ensures Lists(pl, batch)
    ensures var s' := Migrate(pl.env, pl.start, batch).0;
            After(pl.start, events) == s' && Orderly(pl, pl.start, events, Some(FirstKey(pl, x))) && Ledger(pl, s', {})
  {
    hide *;
    FirstKeyIsGood(pl, x);
    batch, events := KeyListing(pl, FirstKey(pl, x));
  }
}
