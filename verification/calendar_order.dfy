/** A calendar pass does not depend on the order in which the events are enumerated: a changed
    occurrence listed before its series is deferred and finds it. */
module CalendarOrder {
  import opened Wrappers
  import opened State
  import opened CalendarPass

  /** A pass without its order: the enumerated items by id, and the world before it. */
  datatype Plan = Plan(mode: Mode, start: World, items: map<SourceId, Item>)

  /** Nobody dies; a series master is not itself an occurrence of another series, now or earlier; a
      series has one item for each original start. */
  ghost predicate ValidPlan(pl: Plan) {
    && OwnDests(pl.start) && MadeLive(pl.start)
    && (forall id <- pl.items :: pl.items[id].event.sourceId == id
          && (pl.items[id].call.Succeeds? || pl.items[id].call.Raises?))
    && (forall id <- pl.items :: MasterIsPlain(pl, pl.items[id].event))
    && MastersMade(pl, pl.start)
    && (forall a <- pl.items, b <- pl.items :: SameOccurrence(pl.items[a].event, pl.items[b].event) ==> a == b)
  }

  ghost predicate MadeLive(w: World) {
    forall e <- w.live :: e.Made?
  }

  predicate MasterIsPlain(pl: Plan, e: Event) {
    e.master.Some? && e.master.value in pl.items ==> pl.items[e.master.value].event.master.None?
  }

  /** What is recorded for a master is an event of its own. */
  ghost predicate MastersMade(pl: Plan, w: World) {
    forall id <- pl.items :: MasterMade(w, pl.items[id].event)
  }

  predicate MasterMade(w: World, e: Event) {
    e.master.Some? && DestOf(w.rows, e.master.value).Some? ==> DestOf(w.rows, e.master.value).value.Made?
  }

  predicate SameOccurrence(e: Event, e': Event) {
    e.master.Some? && e.start.Some? && e.master == e'.master && e.start == e'.start
  }

  // ----- an item sees only its own part of the world ---------------------------------------

  predicate SameRow(w: World, w': World, id: SourceId) {
    (id in w.rows <==> id in w'.rows) && (id in w.rows ==> w.rows[id] == w'.rows[id])
  }

  /** The two worlds agree on the row, the created events and their number for one source event. */
  ghost predicate SameView(w: World, w': World, id: SourceId) {
    && SameRow(w, w', id)
    && w.created[id] == w'.created[id]
    && (forall n: nat :: Made(id, n) in w.live <==> Made(id, n) in w'.live)
    && (forall n: nat :: Made(id, n) in w.live ==> w.live[Made(id, n)] == w'.live[Made(id, n)])
  }

  ghost predicate AllSame(w: World, w': World) {
    forall id: SourceId :: SameView(w, w', id)
  }

  lemma SameViewTrans(a: World, b: World, c: World, id: SourceId)
    requires SameView(a, b, id) && SameView(c, b, id)
    ensures SameView(a, c, id)
  {
  }

  lemma RowView(w: World, w': World, id: SourceId, row: Row<EventId>)
    requires SameView(w, w', id)
    ensures SameView(WithRow(w, id, row), WithRow(w', id, row), id)
  {
  }

  lemma LiveView(w: World, w': World, id: SourceId, dest: EventId, body: string, n: multiset<SourceId>)
    requires SameView(w, w', id)
    ensures SameView(w.(live := w.live[dest := body], created := w.created + n),
                     w'.(live := w'.live[dest := body], created := w'.created + n), id)
  {
  }

  lemma DestLocal(w: World, w': World, id: SourceId)
    requires SameView(w, w', id) && OwnDests(w) && MadeLive(w) && MadeLive(w')
    ensures var dest := DestOf(w.rows, id);
            && DestOf(w'.rows, id) == dest && HashOf(w'.rows, id) == HashOf(w.rows, id)
            && IsDone(w'.rows, id) == IsDone(w.rows, id)
            && (dest.Some? ==> (dest.value in w.live <==> dest.value in w'.live))
  {
  }

  lemma CancelLocal(w: World, w': World, id: SourceId, call: Call)
    requires SameView(w, w', id) && OwnDests(w) && MadeLive(w) && MadeLive(w')
    ensures Cancel(w, id, call).1 == Cancel(w', id, call).1
    ensures SameView(Cancel(w, id, call).0, Cancel(w', id, call).0, id)
  {
    DestLocal(w, w', id);
    hide OwnDests, MadeLive;
  }

  lemma MigrateLocal(w: World, w': World, e: Event, call: Call)
    requires SameView(w, w', e.sourceId) && OwnDests(w) && MadeLive(w) && MadeLive(w')
    ensures Migrate(w, e, call).1 == Migrate(w', e, call).1
    ensures SameView(Migrate(w, e, call).0, Migrate(w', e, call).0, e.sourceId)
  {
    var id := e.sourceId;
    DestLocal(w, w', id);
    var dest := DestOf(w.rows, id);
    assert w.created[id] == w'.created[id];
    hide OwnDests, MadeLive, SameView, DestOf, HashOf, IsDone;
    RowView(w, w', id, Row(Failed, dest, HashOf(w.rows, id)));
    var at := if dest.Some? then dest.value else Made(id, w.created[id]);
    var n := if dest.Some? then multiset{} else multiset{id};
    LiveView(w, w', id, at, e.body, n);
    assert w.created + multiset{} == w.created && w'.created + multiset{} == w'.created;
    var v, v' := w.(live := w.live[at := e.body], created := w.created + n), w'.(live := w'.live[at := e.body], created := w'.created + n);
    RowView(v, v', id, Row(Done, Some(at), Marker(e.hash)));
    hide WithRow;
  }

  lemma MainLocal(mode: Mode, w: World, w': World, item: Item)
    requires SameView(w, w', item.event.sourceId) && OwnDests(w) && MadeLive(w) && MadeLive(w')
    ensures MainStep(mode, w, item).1 == MainStep(mode, w', item).1
    ensures SameView(MainStep(mode, w, item).0, MainStep(mode, w', item).0, item.event.sourceId)
  {
    hide Cancel, Migrate, OwnDests, MadeLive, SameView, Unchanged, IsDone;
    SameStatus(w, w', item.event);
    CancelLocal(w, w', item.event.sourceId, item.call);
    MigrateLocal(w, w', item.event, item.call);
  }

  lemma SameStatus(w: World, w': World, e: Event)
    requires SameView(w, w', e.sourceId)
    ensures Unchanged(w.rows, e) == Unchanged(w'.rows, e) && IsDone(w.rows, e.sourceId) == IsDone(w'.rows, e.sourceId)
  {
  }

  lemma MainOthers(mode: Mode, w: World, item: Item, id: SourceId)
    requires OwnDests(w) && id != item.event.sourceId
    ensures SameView(MainStep(mode, w, item).0, w, id)
  {
  }

  lemma MainKeeps(mode: Mode, w: World, item: Item)
    requires OwnDests(w) && MadeLive(w)
    ensures var w' := MainStep(mode, w, item).0;
            OwnDests(w') && MadeLive(w') && w'.changes == w.changes
  {
    MigrateOwns(w, item.event, item.call);
    MigrateMakes(w, item.event, item.call);
    hide Migrate;
  }

  lemma MigrateMakes(w: World, e: Event, call: Call)
    requires OwnDests(w) && MadeLive(w)
    ensures MadeLive(Migrate(w, e, call).0) && Migrate(w, e, call).0.changes == w.changes
  {
  }

  lemma ApplyLocal(w: World, w': World, item: Item)
    requires SameView(w, w', item.event.sourceId)
    requires item.event.master.Some? ==> SameRow(w, w', item.event.master.value)
    ensures ApplyStep(w, item).1 == ApplyStep(w', item).1
    ensures SameView(ApplyStep(w, item).0, ApplyStep(w', item).0, item.event.sourceId)
    ensures SeriesOf(w, item.event) == SeriesOf(w', item.event)
  {
    InstanceLocal(w, w', item);
    hide Instance, SeriesOf, Unchanged;
  }

  lemma InstanceLocal(w: World, w': World, item: Item)
    requires SameRow(w, w', item.event.sourceId)
    requires item.event.master.Some? ==> SameRow(w, w', item.event.master.value)
    ensures SeriesOf(w, item.event) == SeriesOf(w', item.event) && Instance(w, item) == Instance(w', item)
    ensures Unchanged(w.rows, item.event) == Unchanged(w'.rows, item.event)
  {
  }

  lemma ApplyOthers(w: World, item: Item, id: SourceId)
    requires id != item.event.sourceId
    ensures SameView(ApplyStep(w, item).0, w, id)
  {
  }

  // ----- the main loop ---------------------------------------------------------------------

  predicate Distinct(feed: seq<Item>) {
    forall i, j :: 0 <= i < j < |feed| ==> feed[i].event.sourceId != feed[j].event.sourceId
  }

  predicate Drawn(pl: Plan, feed: seq<Item>) {
    forall item <- feed :: item.event.sourceId in pl.items && pl.items[item.event.sourceId] == item
  }

  predicate Has(feed: seq<Item>, id: SourceId) {
    exists item <- feed :: item.event.sourceId == id
  }

  /** `feed` enumerates the items of the plan, each once, in some order. */
  ghost predicate Lists(pl: Plan, feed: seq<Item>) {
    Distinct(feed) && Drawn(pl, feed) && forall id <- pl.items :: Has(feed, id)
  }

  /** The world in which the main loop left one event: its own step from the start. */
  function MainRef(pl: Plan, id: SourceId): (World, Result)
    requires id in pl.items
  {
    MainStep(pl.mode, pl.start, pl.items[id])
  }

  ghost predicate MainView(pl: Plan, w: World, feed: seq<Item>, id: SourceId) {
    SameView(w, if id in pl.items && Has(feed, id) then MainRef(pl, id).0 else pl.start, id)
  }

  ghost predicate MainStage(pl: Plan, p: Progress, feed: seq<Item>)
    requires Drawn(pl, feed)
  {
    && !p.died && OwnDests(p.world) && MadeLive(p.world) && p.world.changes == pl.start.changes
    && (forall id: SourceId :: MainView(pl, p.world, feed, id))
    && Distinct(p.exceptions)
    && (forall item: Item :: item in p.exceptions <==> item in feed && MainRef(pl, item.event.sourceId).1.Deferred?)
    && (p.failures == 0 <==> forall item <- feed :: !MainRef(pl, item.event.sourceId).1.Failure?)
  }

  lemma HasSnoc(feed: seq<Item>, item: Item, id: SourceId)
    ensures Has(feed + [item], id) <==> Has(feed, id) || item.event.sourceId == id
  {
    if Has(feed, id) {
      var other :| other in feed && other.event.sourceId == id;
      assert other in feed + [item];
    }
    assert item in feed + [item];
  }

  lemma MainViews(pl: Plan, p: Progress, feed: seq<Item>, item: Item)
    requires ValidPlan(pl) && Drawn(pl, feed + [item]) && Drawn(pl, feed) && !Has(feed, item.event.sourceId)
    requires MainStage(pl, p, feed)
    ensures var (w, r) := MainStep(pl.mode, p.world, item);
            && r == MainRef(pl, item.event.sourceId).1
            && (forall id: SourceId :: MainView(pl, w, feed + [item], id))
  {
    var k := item.event.sourceId;
    assert item in feed + [item];
    var w := MainStep(pl.mode, p.world, item).0;
    assert MainView(pl, p.world, feed, k);
    MainLocal(pl.mode, p.world, pl.start, item);
    forall id: SourceId ensures MainView(pl, w, feed + [item], id) {
      hide MainStep, SameView, OwnDests;
      HasSnoc(feed, item, id);
      assert MainView(pl, p.world, feed, id);
      if id != k {
        MainOthers(pl.mode, p.world, item, id);
        ViewStep(w, p.world, if id in pl.items && Has(feed, id) then MainRef(pl, id).0 else pl.start, id);
      }
    }
  }

  lemma ViewStep(a: World, b: World, c: World, id: SourceId)
    requires SameView(a, b, id) && SameView(b, c, id)
    ensures SameView(a, c, id)
  {
  }

  lemma MainStageStep(pl: Plan, p: Progress, feed: seq<Item>, item: Item)
    requires ValidPlan(pl) && Drawn(pl, feed + [item]) && Drawn(pl, feed) && !Has(feed, item.event.sourceId)
    requires MainStage(pl, p, feed)
    ensures MainStage(pl, AdvanceMain(pl.mode, p, item), feed + [item])
  {
    assert item in feed + [item];
    MainViews(pl, p, feed, item);
    MainKeeps(pl.mode, p.world, item);
    hide MainStep, MainView, OwnDests;
    forall i | 0 <= i < |p.exceptions| ensures p.exceptions[i].event.sourceId != item.event.sourceId {
      assert p.exceptions[i] in p.exceptions;
    }
    assert NoDeath(pl, item.event.sourceId) by { RefLives(pl, item.event.sourceId); }
  }

  predicate NoDeath(pl: Plan, id: SourceId)
    requires id in pl.items
  {
    !MainRef(pl, id).1.Death?
  }

  lemma RefLives(pl: Plan, id: SourceId)
    requires ValidPlan(pl) && id in pl.items
    ensures NoDeath(pl, id)
  {
  }

  lemma {:induction false} MainStaged(pl: Plan, feed: seq<Item>)
    requires ValidPlan(pl) && Distinct(feed) && Drawn(pl, feed)
    ensures MainStage(pl, MainLoop(pl.mode, pl.start, feed), feed)
  {
    if feed != [] {
      hide MainStage, AdvanceMain, ValidPlan;
      var init, item := feed[..|feed| - 1], feed[|feed| - 1];
      assert feed == init + [item];
      assert !Has(init, item.event.sourceId);
      MainStaged(pl, init);
      MainStageStep(pl, MainLoop(pl.mode, pl.start, init), init, item);
    }
  }

  // ----- the deferred occurrences ----------------------------------------------------------

  /** The occurrence that applying the item writes to. */
  function Written(w: World, item: Item): Option<EventId> {
    if Unchanged(w.rows, item.event) then None else Instance(w, item)
  }

  function ChangeAt(w: World, k: EventId): Option<Change> {
    if k in w.changes then Some(w.changes[k]) else None
  }

  lemma WrittenIs(w: World, item: Item, k: EventId)
    requires item.call.Succeeds? || item.call.Raises?
    ensures ChangeAt(ApplyStep(w, item).0, k)
              == if Written(w, item) == Some(k) then Some(ChangeOf(item.event)) else ChangeAt(w, k)
  {
  }

  ghost predicate ApplyView(pl: Plan, base: World, w: World, applied: seq<Item>, id: SourceId) {
    SameView(w, if id in pl.items && Has(applied, id) then ApplyStep(base, pl.items[id]).0 else base, id)
  }

  /** An occurrence has the change that its item writes, or what it had. */
  ghost predicate ChangeView(base: World, w: World, applied: seq<Item>, k: EventId) {
    && (forall item <- applied :: Written(base, item) == Some(k) ==> ChangeAt(w, k) == Some(ChangeOf(item.event)))
    && ((forall item <- applied :: Written(base, item) != Some(k)) ==> ChangeAt(w, k) == ChangeAt(base, k))
  }

  ghost predicate ApplyStage(pl: Plan, base: Progress, p: Progress, applied: seq<Item>) {
    && !p.died
    && (forall id: SourceId :: ApplyView(pl, base.world, p.world, applied, id))
    && (forall k: EventId :: ChangeView(base.world, p.world, applied, k))
    && (p.failures == 0 <==> base.failures == 0 && forall item <- applied :: !ApplyStep(base.world, item).1.Failure?)
  }

  ghost predicate Occurrences(pl: Plan, items: seq<Item>) {
    Distinct(items) && Drawn(pl, items) && forall item <- items :: item.event.master.Some?
  }

  /** The item meets its own row and its master's as the main loop left them. */
  lemma AppliedLocal(pl: Plan, base: Progress, p: Progress, applied: seq<Item>, item: Item)
    requires ValidPlan(pl) && ApplyStage(pl, base, p, applied)
    requires Occurrences(pl, applied + [item]) && Occurrences(pl, applied) && !Has(applied, item.event.sourceId)
    ensures ApplyStep(p.world, item).1 == ApplyStep(base.world, item).1
    ensures SameView(ApplyStep(p.world, item).0, ApplyStep(base.world, item).0, item.event.sourceId)
    ensures SeriesOf(p.world, item.event) == SeriesOf(base.world, item.event)
    ensures Written(p.world, item) == Written(base.world, item)
  {
    assert item in applied + [item];
    var m := item.event.master.value;
    assert ApplyView(pl, base.world, p.world, applied, item.event.sourceId);
    assert ApplyView(pl, base.world, p.world, applied, m);
    assert MasterIsPlain(pl, item.event);
    ApplyLocal(p.world, base.world, item);
  }

  lemma ChangeStep(pl: Plan, base: World, w: World, applied: seq<Item>, item: Item, k: EventId)
    requires ValidPlan(pl) && Occurrences(pl, applied + [item]) && !Has(applied, item.event.sourceId)
    requires OwnDests(base) && MastersMade(pl, base)
    requires ChangeView(base, w, applied, k) && Written(w, item) == Written(base, item)
    ensures ChangeView(base, ApplyStep(w, item).0, applied + [item], k)
  {
    hide ApplyStep, ChangeAt, ChangeOf, Written, ChangeView, OwnDests, Unchanged, MastersMade;
    assert item in applied + [item];
    assert forall i <- applied :: i in applied + [item];
    WrittenIs(w, item, k);
    forall other <- applied | Written(base, item) == Some(k) ensures Written(base, other) != Some(k) {
      OneItem(applied, item, other);
      DifferentOccurrences(pl, base, item, other);
    }
    ChangeAdds(base, w, ApplyStep(w, item).0, applied, item, k);
  }

  lemma OneItem(applied: seq<Item>, item: Item, other: Item)
    requires !Has(applied, item.event.sourceId) && other in applied
    ensures other.event.sourceId != item.event.sourceId
  {
  }

  lemma ChangeAdds(base: World, w: World, w': World, applied: seq<Item>, item: Item, k: EventId)
    requires ChangeView(base, w, applied, k)
    requires ChangeAt(w', k) == if Written(base, item) == Some(k) then Some(ChangeOf(item.event)) else ChangeAt(w, k)
    requires Written(base, item) == Some(k) ==> forall other <- applied :: Written(base, other) != Some(k)
    ensures ChangeView(base, w', applied + [item], k)
  {
    hide ChangeAt, ChangeOf, Written;
    assert item in applied + [item];
    assert forall i <- applied :: i in applied + [item];
  }

  lemma DifferentOccurrences(pl: Plan, base: World, a: Item, b: Item)
    requires ValidPlan(pl) && OwnDests(base) && MastersMade(pl, base)
    requires a.event.sourceId in pl.items && pl.items[a.event.sourceId] == a
    requires b.event.sourceId in pl.items && pl.items[b.event.sourceId] == b
    requires a.event.sourceId != b.event.sourceId
    ensures Written(base, a).Some? ==> Written(base, a) != Written(base, b)
  {
    assert !SameOccurrence(a.event, b.event);
    assert MasterMade(base, a.event) && MasterMade(base, b.event);
  }

  lemma MainMakesMasters(pl: Plan, p: Progress, feed: seq<Item>)
    requires ValidPlan(pl) && Drawn(pl, feed) && MainStage(pl, p, feed)
    ensures MastersMade(pl, p.world)
  {
    forall id <- pl.items ensures MasterMade(p.world, pl.items[id].event) {
      var e := pl.items[id].event;
      if e.master.Some? {
        var m := e.master.value;
        assert MasterIsPlain(pl, e) && MasterMade(pl.start, e);
        assert MainView(pl, p.world, feed, m);
        if m in pl.items { PlainMakes(pl.mode, pl.start, pl.items[m]); }
      }
    }
  }

  lemma PlainMakes(mode: Mode, w: World, item: Item)
    requires item.event.master.None?
    requires DestOf(w.rows, item.event.sourceId).Some? ==> DestOf(w.rows, item.event.sourceId).value.Made?
    ensures var dest := DestOf(MainStep(mode, w, item).0.rows, item.event.sourceId);
            dest.Some? ==> dest.value.Made?
  {
  }

  lemma ApplyStageStep(pl: Plan, base: Progress, p: Progress, applied: seq<Item>, item: Item)
    requires ValidPlan(pl) && OwnDests(base.world) && MastersMade(pl, base.world)
    requires Occurrences(pl, applied + [item]) && Occurrences(pl, applied) && !Has(applied, item.event.sourceId)
    requires ApplyStage(pl, base, p, applied)
    ensures ApplyStage(pl, base, AdvanceApply(p, item), applied + [item])
  {
    assert item in applied + [item];
    AppliedLocal(pl, base, p, applied, item);
    var (w, r) := ApplyStep(p.world, item);
    assert !r.Death?;
    forall id: SourceId ensures ApplyView(pl, base.world, w, applied + [item], id) {
      hide ApplyStep, SameView, OwnDests, ChangeView, MastersMade;
      HasSnoc(applied, item, id);
      assert ApplyView(pl, base.world, p.world, applied, id);
      if id != item.event.sourceId {
        ApplyOthers(p.world, item, id);
        ViewStep(w, p.world, if id in pl.items && Has(applied, id) then ApplyStep(base.world, pl.items[id]).0 else base.world, id);
      }
    }
    forall k: EventId ensures ChangeView(base.world, w, applied + [item], k) {
      hide ApplyStep, SameView, OwnDests, ApplyView, MastersMade, ChangeView;
      ChangeStep(pl, base.world, p.world, applied, item, k);
    }
    hide ApplyStep, ApplyView, ChangeView;
  }

  lemma {:induction false} ApplyStaged(pl: Plan, base: Progress, items: seq<Item>)
    requires ValidPlan(pl) && OwnDests(base.world) && MastersMade(pl, base.world) && !base.died
    requires Occurrences(pl, items)
    ensures ApplyStage(pl, base, ApplyLoop(base, items), items)
  {
    if items != [] {
      hide ApplyStage, AdvanceApply, ValidPlan, OwnDests, MastersMade;
      var init, item := items[..|items| - 1], items[|items| - 1];
      assert items == init + [item];
      assert !Has(init, item.event.sourceId);
      ApplyStaged(pl, base, init);
      ApplyStageStep(pl, base, ApplyLoop(base, init), init, item);
    }
  }

  // ----- the result ------------------------------------------------------------------------

  lemma PassStaged(pl: Plan, feed: seq<Item>)
    requires ValidPlan(pl) && Lists(pl, feed)
    ensures var p := MainLoop(pl.mode, pl.start, feed);
            && MainStage(pl, p, feed) && Occurrences(pl, p.exceptions)
            && ApplyStage(pl, p, RunPass(pl.mode, pl.start, feed, false), p.exceptions)
  {
    MainStaged(pl, feed);
    var p := MainLoop(pl.mode, pl.start, feed);
    MainMakesMasters(pl, p, feed);
    DeferredAreOccurrences(pl, p, feed);
    hide MainLoop, MainView, ApplyLoop, Occurrences, OwnDests, MastersMade, ValidPlan, Lists;
    ApplyStaged(pl, p, p.exceptions);
  }

  lemma DeferredAreOccurrences(pl: Plan, p: Progress, feed: seq<Item>)
    requires Drawn(pl, feed) && MainStage(pl, p, feed)
    ensures Occurrences(pl, p.exceptions)
  {
    forall item <- p.exceptions ensures item.event.master.Some? { assert item in feed; }
  }

  lemma AppliedDone(w: World, item: Item)
    requires !Unchanged(w.rows, item.event) && item.call.Succeeds? && item.found
    requires item.event.start.Some? && item.event.master.Some?
    ensures IsDone(ApplyStep(w, item).0.rows, item.event.sourceId) <==>
            IsDone(w.rows, item.event.master.value) && DestOf(w.rows, item.event.master.value).Some?
  {
  }

  /** A deferred occurrence finds its master exactly if the master is done with a destination id after
      the main loop, wherever the two stand in the enumeration; and then its change is on the
      occurrence of that series: deleted if it is cancelled, else patched with its body. */
  lemma ExceptionsSeeAllMasters(pl: Plan, feed: seq<Item>, item: Item)
    requires ValidPlan(pl) && Lists(pl, feed) && item in feed && MainRef(pl, item.event.sourceId).1.Deferred?
    requires item.call.Succeeds? && item.found && item.event.start.Some? && item.event.master.Some?
    ensures var main, end := MainLoop(pl.mode, pl.start, feed).world, RunPass(pl.mode, pl.start, feed, false).world;
            var series := SeriesOf(main, item.event);
            !Unchanged(main.rows, item.event) ==>
              && (IsDone(end.rows, item.event.sourceId) <==>
                    IsDone(main.rows, item.event.master.value) && DestOf(main.rows, item.event.master.value).Some?)
              && (series.Some? ==>
                    ChangeAt(end, Occurrence(series.value, item.event.start.value))
                      == Some(if item.event.cancelled then Deleted else Patched(item.event.body)))
  {
    PassStaged(pl, feed);
    hide MainLoop, RunPass, MainView, ChangeView, MainRef, ApplyStep, ValidPlan, ChangeAt, SeriesOf, Unchanged;
    var p, end := MainLoop(pl.mode, pl.start, feed), RunPass(pl.mode, pl.start, feed, false);
    assert item in p.exceptions;
    assert ApplyView(pl, p.world, end.world, p.exceptions, item.event.sourceId);
    if !Unchanged(p.world.rows, item.event) {
      AppliedDone(p.world, item);
      if SeriesOf(p.world, item.event).Some? { ChangeApplied(pl, p, end, item); }
    }
  }

  lemma ChangeApplied(pl: Plan, p: Progress, end: Progress, item: Item)
    requires ApplyStage(pl, p, end, p.exceptions) && item in p.exceptions
    requires item.call.Succeeds? && item.found && item.event.start.Some? && !Unchanged(p.world.rows, item.event)
    requires SeriesOf(p.world, item.event).Some?
    ensures ChangeAt(end.world, Occurrence(SeriesOf(p.world, item.event).value, item.event.start.value))
              == Some(if item.event.cancelled then Deleted else Patched(item.event.body))
  {
    var k := Occurrence(SeriesOf(p.world, item.event).value, item.event.start.value);
    assert Written(p.world, item) == Some(k);
    assert ChangeView(p.world, end.world, p.exceptions, k);
  }

  /** The step of an event of its own that is to be migrated and whose copy, if any, still exists. */
  predicate Migrates(mode: Mode, w: World, item: Item) {
    var e := item.event;
    && e.master.None? && !e.cancelled && item.call.Succeeds?
    && !(mode.Full? && IsDone(w.rows, e.sourceId)) && !Unchanged(w.rows, e)
    && (DestOf(w.rows, e.sourceId).Some? ==> DestOf(w.rows, e.sourceId).value in w.live)
  }

  /** Done, with the marker of the event, and its own copy has the body of the event. */
  predicate UpToDate(w: World, e: Event) {
    && IsDone(w.rows, e.sourceId) && HashOf(w.rows, e.sourceId) == Marker(e.hash)
    && var dest := DestOf(w.rows, e.sourceId);
       dest.Some? && dest.value.Made? && dest.value.source == e.sourceId
       && dest.value in w.live && w.live[dest.value] == e.body
  }

  lemma MigratedUpToDate(mode: Mode, w: World, item: Item)
    requires OwnDests(w) && MadeLive(w) && Migrates(mode, w, item)
    ensures UpToDate(MainStep(mode, w, item).0, item.event)
    ensures DestOf(w.rows, item.event.sourceId).Some? ==>
              DestOf(MainStep(mode, w, item).0.rows, item.event.sourceId) == DestOf(w.rows, item.event.sourceId)
  {
  }

  lemma UpToDateView(w: World, w': World, e: Event)
    requires SameView(w, w', e.sourceId) && UpToDate(w', e)
    ensures UpToDate(w, e) && DestOf(w.rows, e.sourceId) == DestOf(w'.rows, e.sourceId)
  {
  }

  /** Whatever else the pass does and in whatever order, an event that is to be migrated ends done under
      its marker, and its one copy, the recorded one if there was one, has its body. */
  lemma EventsUpToDate(pl: Plan, feed: seq<Item>, item: Item)
    requires ValidPlan(pl) && Lists(pl, feed) && item in feed && Migrates(pl.mode, pl.start, item)
    ensures var end, id := RunPass(pl.mode, pl.start, feed, false).world, item.event.sourceId;
            && UpToDate(end, item.event)
            && (DestOf(pl.start.rows, id).Some? ==> DestOf(end.rows, id) == DestOf(pl.start.rows, id))
  {
    PassStaged(pl, feed);
    var id := item.event.sourceId;
    var p, end := MainLoop(pl.mode, pl.start, feed), RunPass(pl.mode, pl.start, feed, false);
    assert MainRef(pl, id) == MainStep(pl.mode, pl.start, item) && item.event.master.None?;
    MigratedUpToDate(pl.mode, pl.start, item);
    hide MainLoop, RunPass, ChangeView, MainStep, ApplyStep, SameView, UpToDate, DestOf, MainRef, Migrates;
    assert Has(feed, id);
    assert MainView(pl, p.world, feed, id);
    NotApplied(pl, p.exceptions, item);
    assert ApplyView(pl, p.world, end.world, p.exceptions, id);
    UpToDateView(p.world, MainRef(pl, id).0, item.event);
    UpToDateView(end.world, p.world, item.event);
  }

  lemma NotApplied(pl: Plan, applied: seq<Item>, item: Item)
    requires Occurrences(pl, applied) && item.event.master.None?
    requires item.event.sourceId in pl.items && pl.items[item.event.sourceId] == item
    ensures !Has(applied, item.event.sourceId)
  {
    forall other <- applied ensures other.event.sourceId != item.event.sourceId {
      assert pl.items[other.event.sourceId] == other;
    }
  }

  lemma MainsAgree(pl: Plan, a: seq<Item>, b: seq<Item>)
    requires ValidPlan(pl) && Lists(pl, a) && Lists(pl, b)
    ensures var p, q := MainLoop(pl.mode, pl.start, a), MainLoop(pl.mode, pl.start, b);
            && AllSame(p.world, q.world) && p.world.changes == q.world.changes
            && (forall item: Item :: item in p.exceptions <==> item in q.exceptions)
            && (p.failures == 0 <==> q.failures == 0)
  {
    MainStaged(pl, a);
    MainStaged(pl, b);
    hide MainLoop, SameView, ValidPlan, MainRef;
    var p, q := MainLoop(pl.mode, pl.start, a), MainLoop(pl.mode, pl.start, b);
    SameItems(pl, a, b);
    forall id: SourceId ensures SameView(p.world, q.world, id) {
      assert MainView(pl, p.world, a, id) && MainView(pl, q.world, b, id);
      SameViewTrans(p.world, if id in pl.items then MainRef(pl, id).0 else pl.start, q.world, id);
    }
  }

  lemma SameItems(pl: Plan, a: seq<Item>, b: seq<Item>)
    requires Lists(pl, a) && Lists(pl, b)
    ensures forall item: Item :: item in a <==> item in b
  {
    forall item: Item ensures item in a <==> item in b {
      if item in a { assert Has(b, item.event.sourceId); }
      if item in b { assert Has(a, item.event.sourceId); }
    }
  }

  /** Two apply loops over the same occurrences, from worlds that agree. */
  lemma AppliesAgree(pl: Plan, p: Progress, q: Progress, end: Progress, end': Progress, id: SourceId)
    requires ValidPlan(pl) && AllSame(p.world, q.world)
    requires Occurrences(pl, p.exceptions) && Occurrences(pl, q.exceptions)
    requires forall item: Item :: item in p.exceptions <==> item in q.exceptions
    requires ApplyStage(pl, p, end, p.exceptions) && ApplyStage(pl, q, end', q.exceptions)
    ensures SameView(end.world, end'.world, id)
  {
    hide SameView, ApplyStep, ChangeView, ValidPlan;
    assert ApplyView(pl, p.world, end.world, p.exceptions, id);
    assert ApplyView(pl, q.world, end'.world, q.exceptions, id);
    if item :| item in p.exceptions && item.event.sourceId == id {
      LocalAt(p.world, q.world, item);
      ViewStep(end.world, ApplyStep(p.world, item).0, ApplyStep(q.world, item).0, id);
      SameViewTrans(end.world, ApplyStep(q.world, item).0, end'.world, id);
    } else {
      assert SameView(p.world, q.world, id);
      ViewStep(end.world, p.world, q.world, id);
      SameViewTrans(end.world, q.world, end'.world, id);
    }
  }

  lemma LocalAt(w: World, w': World, item: Item)
    requires AllSame(w, w')
    ensures ApplyStep(w, item).1 == ApplyStep(w', item).1
    ensures SameView(ApplyStep(w, item).0, ApplyStep(w', item).0, item.event.sourceId)
    ensures Written(w, item) == Written(w', item)
  {
    hide ApplyStep;
    assert SameView(w, w', item.event.sourceId);
    if item.event.master.Some? { assert SameView(w, w', item.event.master.value); }
    ApplyLocal(w, w', item);
  }

  lemma ChangesAgree(pl: Plan, p: Progress, q: Progress, end: Progress, end': Progress, k: EventId)
    requires AllSame(p.world, q.world) && p.world.changes == q.world.changes
    requires forall item: Item :: item in p.exceptions <==> item in q.exceptions
    requires ApplyStage(pl, p, end, p.exceptions) && ApplyStage(pl, q, end', q.exceptions)
    ensures ChangeAt(end.world, k) == ChangeAt(end'.world, k)
  {
    hide AllSame, Written, ApplyView, ApplyStep;
    assert ChangeView(p.world, end.world, p.exceptions, k);
    assert ChangeView(q.world, end'.world, q.exceptions, k);
    forall item <- p.exceptions ensures Written(p.world, item) == Written(q.world, item) {
      LocalAt(p.world, q.world, item);
    }
  }

  /** Main result. In whatever order a pass enumerates its events, it leaves the same rows, the same
      created events and the same changed occurrences, and it succeeds or fails alike, so that the
      cursor moves alike. */
  lemma OrderIndependence(pl: Plan, a: seq<Item>, b: seq<Item>)
    requires ValidPlan(pl) && Lists(pl, a) && Lists(pl, b)
    ensures var p, q := RunPass(pl.mode, pl.start, a, false), RunPass(pl.mode, pl.start, b, false);
            && AllSame(p.world, q.world)
            && (forall k: EventId :: ChangeAt(p.world, k) == ChangeAt(q.world, k))
            && (Clean(p) <==> Clean(q))
  {
    PassStaged(pl, a);
    PassStaged(pl, b);
    MainsAgree(pl, a, b);
    hide MainLoop, RunPass, MainStage, Lists, ValidPlan, AllSame;
    var p, q := MainLoop(pl.mode, pl.start, a), MainLoop(pl.mode, pl.start, b);
    var end, end' := RunPass(pl.mode, pl.start, a, false), RunPass(pl.mode, pl.start, b, false);
    EndsAgree(pl, p, q, end, end');
    forall k: EventId ensures ChangeAt(end.world, k) == ChangeAt(end'.world, k) {
      ChangesAgree(pl, p, q, end, end', k);
    }
    hide ApplyView, ChangeView, ApplyStep;
    forall item <- p.exceptions ensures ApplyStep(p.world, item).1 == ApplyStep(q.world, item).1 {
      LocalAt(p.world, q.world, item);
    }
  }

  lemma EndsAgree(pl: Plan, p: Progress, q: Progress, end: Progress, end': Progress)
    requires ValidPlan(pl) && AllSame(p.world, q.world)
    requires Occurrences(pl, p.exceptions) && Occurrences(pl, q.exceptions)
    requires forall item: Item :: item in p.exceptions <==> item in q.exceptions
    requires ApplyStage(pl, p, end, p.exceptions) && ApplyStage(pl, q, end', q.exceptions)
    ensures AllSame(end.world, end'.world)
  {
    forall id: SourceId ensures SameView(end.world, end'.world, id) {
      hide SameView, ApplyStage, Occurrences, AllSame;
      AppliesAgree(pl, p, q, end, end', id);
    }
  }
}
