/** What a calendar pass without failures has done (workloads/calendar_job.py): everything it was given is
    settled, so that the cursor passes nothing that is not. */
module CalendarClean {
  import opened Wrappers
  import opened State
  import opened CalendarPass
  import opened CalendarOrder
  import opened CalendarRuns

  /** The item is enumerated once, and nothing else under its id. */
  predicate Once(feed: seq<Item>, item: Item) {
    feed != [] ==>
      var init, last := feed[..|feed| - 1], feed[|feed| - 1];
      && Once(init, item)
      && (last.event.sourceId == item.event.sourceId ==> last == item && !Has(init, item.event.sourceId))
  }

  /** The change marker says that nothing changed since the event was migrated; a full pass takes any
      migrated event for unchanged. */
  predicate Current(mode: Mode, w: World, e: Event) {
    && e.sourceId in w.rows && w.rows[e.sourceId].status == Done
    && (mode == Full || (e.hash != "" && w.rows[e.sourceId].sourceHash == Some(e.hash)))
  }

  function Recorded(hash: string): Option<string> {
    if hash == "" then None else Some(hash)
  }

  /** The event is done: as it was, or under its marker with its body on the copy that its row names, the recorded
      one if there was one. */
  predicate EventDone(mode: Mode, w: World, w': World, e: Event) {
    e.sourceId in w'.rows && w'.rows[e.sourceId].status == Done &&
    if Current(mode, w, e) then w'.rows[e.sourceId] == w.rows[e.sourceId]
    else
      var row := w'.rows[e.sourceId];
      && row.sourceHash == Recorded(e.hash) && row.destId.Some? && row.destId.value in w'.live
      && w'.live[row.destId.value] == e.body
      && (e.sourceId in w.rows && w.rows[e.sourceId].destId.Some? ==> row.destId == w.rows[e.sourceId].destId)
  }

  /** The cancelled event is as it was, or its copy is gone and the row says so. */
  predicate CancelledDone(w: World, w': World, e: Event) {
    || (e.sourceId in w.rows && e.sourceId in w'.rows && w'.rows[e.sourceId] == w.rows[e.sourceId])
    || (e.sourceId !in w.rows && e.sourceId !in w'.rows)
    || (e.sourceId in w.rows && w.rows[e.sourceId].status == Done && w.rows[e.sourceId].destId.Some?
        && w.rows[e.sourceId].destId.value !in w'.live
        && e.sourceId in w'.rows && w'.rows[e.sourceId] == w.rows[e.sourceId].(status := Skipped))
  }

  predicate OwnDone(mode: Mode, w: World, w': World, e: Event) {
    if e.cancelled then CancelledDone(w, w', e) else EventDone(mode, w, w', e)
  }

  /** The instance of the occurrence in the series that its master became. */
  predicate InstanceIs(w: World, e: Event, instance: EventId) {
    && e.master.Some? && e.start.Some? && e.master.value in w.rows
    && w.rows[e.master.value].status == Done && w.rows[e.master.value].destId.Some?
    && instance == Occurrence(w.rows[e.master.value].destId.value, e.start.value)
  }

  /** The occurrence is done: as it was, or under its marker with its change on its instance; or it is a
      cancelled one without an instance, and skipped. */
  ghost predicate OccurrenceDone(mode: Mode, w: World, w': World, e: Event, found: bool) {
    e.sourceId in w'.rows &&
    if Current(Delta, w, e) || (Current(mode, w, e) && !e.cancelled) then w'.rows[e.sourceId] == w.rows[e.sourceId]
    else
      exists instance ::
        && InstanceIs(w', e, instance)
        && if found then
             && w'.rows[e.sourceId] == Row(Done, Some(instance), Recorded(e.hash))
             && instance in w'.changes && w'.changes[instance] == if e.cancelled then Deleted else Patched(e.body)
           else e.cancelled && w'.rows[e.sourceId] == Row(Skipped, None, None)
  }

  // ----- the main loop ---------------------------------------------------------------------

  ghost predicate Sound(w: World) {
    OwnDests(w) && MadeLive(w)
  }

  lemma {:induction false} MainUntouched(mode: Mode, w: World, feed: seq<Item>, id: SourceId)
    requires Sound(w)
    ensures var w' := MainLoop(mode, w, feed).world;
            Sound(w') && w'.changes == w.changes && (!Has(feed, id) ==> SameView(w', w, id))
  {
    if feed != [] {
      var init, item := feed[..|feed| - 1], feed[|feed| - 1];
      assert feed == init + [item];
      HasSnoc(init, item, id);
      MainStepOf(mode, w, init, item, id);
      hide MainLoop, MainStep, OwnDests, MadeLive, SameView, Has;
      MainUntouched(mode, w, init, id);
      var p := MainLoop(mode, w, init);
      MainKeeps(mode, p.world, item);
      if !Has(feed, id) {
        MainOthers(mode, p.world, item, id);
        ViewStep(MainStep(mode, p.world, item).0, p.world, w, id);
      }
    }
  }

  /** What the step of an event of its own leaves, if it ends well. */
  lemma OwnStep(mode: Mode, w: World, item: Item)
    requires Sound(w) && item.event.master.None? && MainStep(mode, w, item).1.Fine?
    ensures OwnDone(mode, w, MainStep(mode, w, item).0, item.event)
  {
  }

  lemma OwnDoneSame(mode: Mode, w: World, a: World, b: World, e: Event)
    requires SameView(b, a, e.sourceId) && Sound(a) && Sound(b) && OwnDone(mode, w, a, e)
    ensures OwnDone(mode, w, b, e)
  {
    if e.sourceId in a.rows && a.rows[e.sourceId].destId.Some? {
      var d := a.rows[e.sourceId].destId.value;
      assert d.Made? ==> d.source == e.sourceId;
    }
  }

  lemma OwnDoneFrom(mode: Mode, w: World, w0: World, w': World, e: Event)
    requires SameView(w0, w, e.sourceId) && OwnDone(mode, w0, w', e)
    ensures OwnDone(mode, w, w', e)
  {
  }

  lemma MoreMain(mode: Mode, w: World, init: seq<Item>, item: Item)
    ensures MainLoop(mode, w, init + [item]) == AdvanceMain(mode, MainLoop(mode, w, init), item)
  {
    hide AdvanceMain;
    assert (init + [item])[..|init|] == init;
  }

  /** Without death and failure so far, there was none before. */
  lemma CleanBefore(mode: Mode, p: Progress, item: Item)
    requires !AdvanceMain(mode, p, item).died && AdvanceMain(mode, p, item).failures == 0
    ensures !p.died && p.failures == 0
    ensures !MainStep(mode, p.world, item).1.Failure? && !MainStep(mode, p.world, item).1.Death?
  {
    hide MainStep;
  }

  lemma OnceLast(init: seq<Item>, last: Item, item: Item)
    requires Once(init + [last], item)
    ensures Once(init, item) && (last.event.sourceId == item.event.sourceId ==> last == item && !Has(init, item.event.sourceId))
  {
    assert (init + [last])[..|init|] == init;
  }

  predicate IsOwn(e: Event) {
    e.master.None?
  }

  lemma {:induction false} MainSettles(mode: Mode, w: World, feed: seq<Item>, item: Item)
    requires Sound(w) && Once(feed, item) && Has(feed, item.event.sourceId) && IsOwn(item.event)
    requires !MainLoop(mode, w, feed).died && MainLoop(mode, w, feed).failures == 0
    ensures OwnDone(mode, w, MainLoop(mode, w, feed).world, item.event)
  {
    var init, last := feed[..|feed| - 1], feed[|feed| - 1];
    assert feed == init + [last];
    hide MainLoop, MainStep, SameView, Has, OwnDests, MadeLive, OwnDone, AdvanceMain, Once;
    OnceLast(init, last, item);
    MoreMain(mode, w, init, last);
    var p := MainLoop(mode, w, init);
    CleanBefore(mode, p, last);
    HasSnoc(init, last, item.event.sourceId);
    MainUntouched(mode, w, init, item.event.sourceId);
    AdvancedWorld(mode, p, last);
    if last.event.sourceId == item.event.sourceId {
      OwnEnds(mode, p.world, last);
      OwnStep(mode, p.world, last);
      OwnDoneFrom(mode, w, p.world, MainStep(mode, p.world, last).0, item.event);
    } else {
      MainSettles(mode, w, init, item);
      MainOthers(mode, p.world, last, item.event.sourceId);
      MainUntouched(mode, w, feed, item.event.sourceId);
      OwnDoneSame(mode, w, p.world, MainStep(mode, p.world, last).0, item.event);
    }
  }

  lemma OwnEnds(mode: Mode, w: World, item: Item)
    requires IsOwn(item.event)
    ensures !MainStep(mode, w, item).1.Deferred?
  {
  }

  lemma AdvancedWorld(mode: Mode, p: Progress, item: Item)
    ensures !p.died ==> AdvanceMain(mode, p, item).world == MainStep(mode, p.world, item).0
    ensures AdvanceMain(mode, p, item).exceptions
              == p.exceptions + if !p.died && MainStep(mode, p.world, item).1.Deferred? then [item] else []
  {
    hide MainStep;
  }

  /** The occurrence is to be applied after the main loop, unless a full pass finds it done. */
  predicate ToApply(mode: Mode, w: World, e: Event) {
    e.master.Some? && (e.cancelled || !(mode == Full && Current(Full, w, e)))
  }

  lemma DefersIff(mode: Mode, w: World, item: Item)
    requires !MainStep(mode, w, item).1.Death?
    ensures MainStep(mode, w, item).1.Deferred? <==> ToApply(mode, w, item.event)
  {
  }

  lemma OnceMore(list: seq<Item>, last: Item, item: Item)
    requires Once(list, item) && (last.event.sourceId == item.event.sourceId ==> last == item && !Has(list, item.event.sourceId))
    ensures Once(list + [last], item)
  {
    assert (list + [last])[..|list|] == list;
  }

  ghost predicate Defers(mode: Mode, w: World, feed: seq<Item>, p: Progress, item: Item) {
    var id := item.event.sourceId;
    && Once(p.exceptions, item) && (Has(p.exceptions, id) <==> Has(feed, id) && ToApply(mode, w, item.event))
    && (item.event.master.Some? ==> SameView(p.world, w, id))
  }

  /** An occurrence is deferred once, and its row is as it was. */
  lemma {:induction false} MainDefers(mode: Mode, w: World, feed: seq<Item>, item: Item)
    requires Sound(w) && Once(feed, item) && !MainLoop(mode, w, feed).died && MainLoop(mode, w, feed).failures == 0
    ensures Defers(mode, w, feed, MainLoop(mode, w, feed), item)
  {
    if feed == [] {
      SameViewRefl(w, item.event.sourceId);
    } else {
      var init, last := feed[..|feed| - 1], feed[|feed| - 1];
      assert feed == init + [last];
      hide MainLoop, MainStep, SameView, Has, OwnDests, MadeLive, AdvanceMain, Once, ToApply;
      OnceLast(init, last, item);
      MoreMain(mode, w, init, last);
      var p := MainLoop(mode, w, init);
      CleanBefore(mode, p, last);
      MainDefers(mode, w, init, item);
      MainUntouched(mode, w, init, item.event.sourceId);
      AdvancedWorld(mode, p, last);
      DefersIff(mode, p.world, last);
      DefersMore(mode, w, init, p, last, item);
    }
  }

  lemma SameViewRefl(w: World, id: SourceId)
    ensures SameView(w, w, id)
  {
  }

  lemma DefersMore(mode: Mode, w: World, init: seq<Item>, p: Progress, last: Item, item: Item)
    requires Sound(p.world) && Defers(mode, w, init, p, item) && !p.died
    requires last.event.sourceId == item.event.sourceId ==> last == item && !Has(init, item.event.sourceId)
    requires !Has(init, item.event.sourceId) ==> SameView(p.world, w, item.event.sourceId)
    requires MainStep(mode, p.world, last).1.Deferred? <==> ToApply(mode, p.world, last.event)
    ensures Defers(mode, w, init + [last], AdvanceMain(mode, p, last), item)
  {
    var id := item.event.sourceId;
    HasSnoc(init, last, id);
    HasSnoc(p.exceptions, last, id);
    AdvancedWorld(mode, p, last);
    if last.event.sourceId == id {
      ToApplySame(mode, w, p.world, item.event);
      if item.event.master.Some? {
        OccurrenceStep(mode, p.world, item);
        ViewStep(MainStep(mode, p.world, item).0, p.world, w, id);
      }
    } else {
      MainOthers(mode, p.world, last, id);
      if item.event.master.Some? { ViewStep(MainStep(mode, p.world, last).0, p.world, w, id); }
    }
    hide MainStep, SameView, Has, OwnDests, MadeLive, AdvanceMain, ToApply, Once;
    assert p.exceptions + [] == p.exceptions;
    if MainStep(mode, p.world, last).1.Deferred? { OnceMore(p.exceptions, last, item); }
  }

  lemma ToApplySame(mode: Mode, w: World, w': World, e: Event)
    requires SameView(w', w, e.sourceId)
    ensures ToApply(mode, w, e) == ToApply(mode, w', e)
  {
  }

  lemma OccurrenceStep(mode: Mode, w: World, item: Item)
    requires item.event.master.Some?
    ensures SameView(MainStep(mode, w, item).0, w, item.event.sourceId)
    ensures SameView(w, w, item.event.sourceId)
  {
    hide Migrate, Cancel;
  }

  // ----- the occurrences -------------------------------------------------------------------

  /** No other item is for the same occurrence, and the master is not itself an occurrence. */
  predicate AloneInSeries(feed: seq<Item>, item: Item) {
    forall other <- feed ::
      && (other.event.sourceId != item.event.sourceId ==> !SameOccurrence(other.event, item.event))
      && (Some(other.event.sourceId) == item.event.master ==> other.event.master.None?)
  }

  ghost predicate Applied(w: World, w': World, list: seq<Item>, item: Item) {
    var id := item.event.sourceId;
    && OwnDests(w') && w'.live == w.live && (item.event.master.Some? ==> SameRow(w', w, item.event.master.value))
    && (if Has(list, id) then OccurrenceDone(Delta, w, w', item.event, item.found) else SameRow(w', w, id))
  }

  lemma OwnApply(w: World, item: Item)
    requires item.event.master.Some? && item.event.master != Some(item.event.sourceId) && ApplyStep(w, item).1.Fine?
    ensures OccurrenceDone(Delta, w, ApplyStep(w, item).0, item.event, item.found)
  {
    var e, w' := item.event, ApplyStep(w, item).0;
    if !Current(Delta, w, e) {
      var instance := Occurrence(DestOf(w.rows, e.master.value).value, e.start.value);
      assert InstanceIs(w', e, instance);
    }
  }

  lemma ApplyFrame(w: World, item: Item)
    requires OwnDests(w)
    ensures var w' := ApplyStep(w, item).0;
            && OwnDests(w') && w'.live == w.live
            && (forall id: SourceId :: id != item.event.sourceId ==> SameRow(w', w, id))
            && (forall k: EventId :: !(InstanceIs(w, item.event, k)) ==> ChangeAt(w', k) == ChangeAt(w, k))
  {
    ActOwns(w, Apply(item));
  }

  lemma OtherInstance(w: World, e: Event, other: Event, k: EventId)
    requires OwnDests(w) && MasterMade(w, e) && InstanceIs(w, e, k) && !SameOccurrence(other, e)
    ensures !InstanceIs(w, other, k)
  {
  }

  lemma OccurrenceStays(w0: World, w: World, w': World, e: Event, found: bool)
    requires OccurrenceDone(Delta, w0, w, e, found) && SameRow(w', w, e.sourceId)
    requires e.master.Some? && SameRow(w', w, e.master.value)
    requires forall k :: InstanceIs(w, e, k) ==> ChangeAt(w', k) == ChangeAt(w, k)
    ensures OccurrenceDone(Delta, w0, w', e, found)
  {
    if !Current(Delta, w0, e) {
      var k :| InstanceIs(w, e, k)
        && if found then
             && w.rows[e.sourceId] == Row(Done, Some(k), Recorded(e.hash))
             && k in w.changes && w.changes[k] == if e.cancelled then Deleted else Patched(e.body)
           else e.cancelled && w.rows[e.sourceId] == Row(Skipped, None, None);
      assert InstanceIs(w', e, k);
    }
  }

  lemma OccurrenceFrom(w0: World, w: World, w': World, e: Event, found: bool)
    requires OccurrenceDone(Delta, w, w', e, found) && SameRow(w, w0, e.sourceId)
    ensures OccurrenceDone(Delta, w0, w', e, found)
  {
  }

  lemma AppliedStep(w0: World, w: World, init: seq<Item>, last: Item, item: Item)
    requires OwnDests(w0) && MasterMade(w0, item.event) && Applied(w0, w, init, item)
    requires item.event.master.Some? && item.event.master != Some(item.event.sourceId)
    requires last.event.master.Some? && AloneInSeries([last], item)
    requires last.event.sourceId == item.event.sourceId ==> last == item && !Has(init, item.event.sourceId)
    requires ApplyStep(w, last).1.Fine?
    ensures Applied(w0, ApplyStep(w, last).0, init + [last], item)
  {
    var e, w' := item.event, ApplyStep(w, last).0;
    HasSnoc(init, last, e.sourceId);
    ApplyFrame(w, last);
    assert last in [last];
    hide ApplyStep, Has, OwnDests, OccurrenceDone;
    if last.event.sourceId == e.sourceId {
      OwnApply(w, item);
      OccurrenceFrom(w0, w, w', e, item.found);
    } else {
      forall k | InstanceIs(w, e, k) ensures ChangeAt(w', k) == ChangeAt(w, k) { OtherInstance(w, e, last.event, k); }
      if Has(init, e.sourceId) { OccurrenceStays(w0, w, w', e, item.found); }
    }
  }

  lemma MoreApplied(p: Progress, init: seq<Item>, last: Item)
    ensures ApplyLoop(p, init + [last]) == AdvanceApply(ApplyLoop(p, init), last)
  {
    hide AdvanceApply;
    assert (init + [last])[..|init|] == init;
  }

  lemma CleanApply(p: Progress, last: Item)
    requires !AdvanceApply(p, last).died && AdvanceApply(p, last).failures == 0
    ensures !p.died && p.failures == 0 && ApplyStep(p.world, last).1.Fine?
    ensures AdvanceApply(p, last).world == ApplyStep(p.world, last).0
  {
  }

  lemma {:induction false} AppliesAll(p: Progress, list: seq<Item>, item: Item)
    requires OwnDests(p.world) && MasterMade(p.world, item.event) && Once(list, item) && AloneInSeries(list, item)
    requires item.event.master.Some? && item.event.master != Some(item.event.sourceId)
    requires forall other <- list :: other.event.master.Some?
    requires !ApplyLoop(p, list).died && ApplyLoop(p, list).failures == 0
    ensures !p.died && p.failures == 0 && Applied(p.world, ApplyLoop(p, list).world, list, item)
  {
    if list != [] {
      var init, last := list[..|list| - 1], list[|list| - 1];
      assert list == init + [last];
      assert forall other <- init :: other in list;
      assert last in list;
      hide ApplyLoop, AdvanceApply, ApplyStep, OwnDests, Applied, Once, SameOccurrence, MasterMade;
      OnceLast(init, last, item);
      MoreApplied(p, init, last);
      CleanApply(ApplyLoop(p, init), last);
      AppliesAll(p, init, item);
      AppliedStep(p.world, ApplyLoop(p, init).world, init, last, item);
    }
  }

  // ----- the pass --------------------------------------------------------------------------

  lemma {:induction false} ApplyKeepsRow(p: Progress, list: seq<Item>, id: SourceId)
    requires OwnDests(p.world) && !Has(list, id) && !ApplyLoop(p, list).died && ApplyLoop(p, list).failures == 0
    ensures !p.died && p.failures == 0
    ensures var w' := ApplyLoop(p, list).world; OwnDests(w') && SameRow(w', p.world, id) && w'.live == p.world.live
  {
    if list != [] {
      var init, last := list[..|list| - 1], list[|list| - 1];
      assert list == init + [last];
      HasSnoc(init, last, id);
      hide ApplyLoop, AdvanceApply, ApplyStep, OwnDests, Has;
      MoreApplied(p, init, last);
      CleanApply(ApplyLoop(p, init), last);
      ApplyKeepsRow(p, init, id);
      ApplyFrame(ApplyLoop(p, init).world, last);
    }
  }

  lemma OwnDoneKept(mode: Mode, w: World, a: World, b: World, e: Event)
    requires OwnDone(mode, w, a, e) && SameRow(b, a, e.sourceId) && b.live == a.live
    ensures OwnDone(mode, w, b, e)
  {
  }

  lemma CleanParts(mode: Mode, w: World, feed: seq<Item>, broken: bool)
    requires Clean(RunPass(mode, w, feed, broken))
    ensures var p := MainLoop(mode, w, feed);
            && !p.died && p.failures == 0 && !broken
            && RunPass(mode, w, feed, broken) == ApplyLoop(p, p.exceptions)
  {
    hide MainLoop, ApplyLoop;
    var p := MainLoop(mode, w, feed);
    ApplyKeepsFailures(if broken then p.(failures := p.failures + 1) else p, p.exceptions);
  }

  lemma {:induction false} OnlyOccurrences(mode: Mode, w: World, feed: seq<Item>)
    ensures forall other <- MainLoop(mode, w, feed).exceptions :: other in feed && other.event.master.Some?
  {
    if feed != [] {
      var init, last := feed[..|feed| - 1], feed[|feed| - 1];
      assert feed == init + [last];
      hide MainLoop, AdvanceMain;
      MoreMain(mode, w, init, last);
      OnlyOccurrences(mode, w, init);
      MoreExceptions(mode, MainLoop(mode, w, init), init, last);
    }
  }

  /** What a pass leaves of an item that it was given once. */
  ghost predicate ItemDone(mode: Mode, w: World, w': World, item: Item) {
    if item.event.master.None? then OwnDone(mode, w, w', item.event)
    else OccurrenceDone(mode, w, w', item.event, item.found)
  }

  /** Main result. After a pass over any feed that ends without failure, so that its cursor may move: every
      event of its own is done under its marker, with its body on its copy, or was current; a cancelled
      one is as it was, or removed; and every changed occurrence is done under its marker with its
      change on its instance, or was current, or is a cancelled one without an instance and skipped. */
  lemma CleanPass(mode: Mode, w: World, feed: seq<Item>, broken: bool, item: Item)
    requires Sound(w) && Clean(RunPass(mode, w, feed, broken)) && item in feed && Once(feed, item)
    requires item.event.master.Some? ==> MasterMade(w, item.event) && AloneInSeries(feed, item)
    ensures ItemDone(mode, w, RunPass(mode, w, feed, broken).world, item)
  {
    var id, p := item.event.sourceId, MainLoop(mode, w, feed);
    assert Has(feed, id);
    CleanParts(mode, w, feed, broken);
    MainUntouched(mode, w, feed, id);
    MainDefers(mode, w, feed, item);
    OnlyOccurrences(mode, w, feed);
    hide RunPass, MainLoop, ApplyLoop, OwnDests, MadeLive, Has, Once, SameView, OwnDone;
    if item.event.master.None? {
      MainSettles(mode, w, feed, item);
      NotToApply(mode, w, item.event);
      ApplyKeepsRow(p, p.exceptions, id);
      OwnDoneKept(mode, w, p.world, ApplyLoop(p, p.exceptions).world, item.event);
    } else {
      MastersStay(mode, w, feed, item);
      ExceptionsAlone(feed, p.exceptions, item);
      OccurrenceEnds(mode, w, p, item);
    }
  }

  lemma NotToApply(mode: Mode, w: World, e: Event)
    requires e.master.None?
    ensures !ToApply(mode, w, e)
  {
  }

  lemma ExceptionsAlone(feed: seq<Item>, list: seq<Item>, item: Item)
    requires AloneInSeries(feed, item) && item in feed && item.event.master.Some?
    requires forall other <- list :: other in feed
    ensures AloneInSeries(list, item) && item.event.master != Some(item.event.sourceId)
  {
    hide SameOccurrence;
  }

  /** What is recorded for the master is still an event of its own. */
  lemma {:induction false} MastersStay(mode: Mode, w: World, feed: seq<Item>, item: Item)
    requires MasterMade(w, item.event) && AloneInSeries(feed, item)
    ensures MasterMade(MainLoop(mode, w, feed).world, item.event)
  {
    if feed != [] {
      var init, last := feed[..|feed| - 1], feed[|feed| - 1];
      assert feed == init + [last];
      assert last in feed && forall other <- init :: other in feed;
      hide MainLoop, MainStep, AdvanceMain, SameOccurrence, MasterMade;
      MoreMain(mode, w, init, last);
      MastersStay(mode, w, init, item);
      AdvancedWorld(mode, MainLoop(mode, w, init), last);
      MasterStays(mode, MainLoop(mode, w, init).world, last, item.event);
      DiedWorld(mode, MainLoop(mode, w, init), last);
    }
  }

  lemma DiedWorld(mode: Mode, p: Progress, item: Item)
    ensures p.died ==> AdvanceMain(mode, p, item) == p
  {
    hide MainStep;
  }

  lemma MasterStays(mode: Mode, w: World, item: Item, e: Event)
    requires MasterMade(w, e)
    ensures MasterMade(MainStep(mode, w, item).0, e)
  {
  }

  lemma OccurrenceEnds(mode: Mode, w: World, p: Progress, item: Item)
    requires OwnDests(p.world) && item.event.master.Some? && MasterMade(p.world, item.event)
    requires Once(p.exceptions, item) && SameView(p.world, w, item.event.sourceId)
    requires Has(p.exceptions, item.event.sourceId) <==> ToApply(mode, w, item.event)
    requires AloneInSeries(p.exceptions, item) && item.event.master != Some(item.event.sourceId)
    requires forall other <- p.exceptions :: other.event.master.Some?
    requires !ApplyLoop(p, p.exceptions).died && ApplyLoop(p, p.exceptions).failures == 0
    ensures OccurrenceDone(mode, w, ApplyLoop(p, p.exceptions).world, item.event, item.found)
  {
    var w' := ApplyLoop(p, p.exceptions).world;
    AppliesAll(p, p.exceptions, item);
    hide ApplyLoop, OwnDests, Has, Once, SameOccurrence, MasterMade, AloneInSeries;
    if Has(p.exceptions, item.event.sourceId) {
      OccurrenceFrom(w, p.world, w', item.event, item.found);
      SomeMode(mode, w, w', item.event, item.found);
    } else {
      assert Current(Full, w, item.event) && mode == Full;
    }
  }

  lemma SomeMode(mode: Mode, w: World, w': World, e: Event, found: bool)
    requires OccurrenceDone(Delta, w, w', e, found) && ToApply(mode, w, e)
    ensures OccurrenceDone(mode, w, w', e, found)
  {
  }

  // ----- feeds of any kind -----------------------------------------------------------------

  predicate Settled(w: World, id: SourceId) {
    id in w.rows && (w.rows[id].status == Done || w.rows[id].status == Skipped)
  }

  lemma MainStepSettles(mode: Mode, w: World, item: Item, id: SourceId)
    requires !MainStep(mode, w, item).1.Failure? && !MainStep(mode, w, item).1.Death?
    ensures Settled(w, id) ==> Settled(MainStep(mode, w, item).0, id)
    ensures item.event.master.Some? || !item.event.cancelled ==>
              Settled(MainStep(mode, w, item).0, item.event.sourceId) || MainStep(mode, w, item).1.Deferred?
  {
  }

  lemma ApplyStepSettles(w: World, item: Item, id: SourceId)
    requires ApplyStep(w, item).1.Fine?
    ensures Settled(w, id) ==> Settled(ApplyStep(w, item).0, id)
    ensures Settled(ApplyStep(w, item).0, item.event.sourceId)
  {
  }

  lemma {:induction false} MainSettlesAny(mode: Mode, w: World, feed: seq<Item>, item: Item)
    requires item in feed && (item.event.master.Some? || !item.event.cancelled)
    requires !MainLoop(mode, w, feed).died && MainLoop(mode, w, feed).failures == 0
    ensures Settled(MainLoop(mode, w, feed).world, item.event.sourceId) || item in MainLoop(mode, w, feed).exceptions
  {
    var init, last := feed[..|feed| - 1], feed[|feed| - 1];
    assert feed == init + [last];
    hide MainLoop, MainStep, AdvanceMain, Settled;
    MoreMain(mode, w, init, last);
    var p := MainLoop(mode, w, init);
    CleanBefore(mode, p, last);
    AdvancedWorld(mode, p, last);
    MainStepSettles(mode, p.world, last, item.event.sourceId);
    if item != last { MainSettlesAny(mode, w, init, item); }
  }

  lemma {:induction false} ApplySettlesAny(p: Progress, list: seq<Item>, item: Item)
    requires item in list || Settled(p.world, item.event.sourceId)
    requires !ApplyLoop(p, list).died && ApplyLoop(p, list).failures == 0
    ensures Settled(ApplyLoop(p, list).world, item.event.sourceId)
  {
    if list != [] {
      var init, last := list[..|list| - 1], list[|list| - 1];
      assert list == init + [last];
      hide ApplyLoop, ApplyStep, AdvanceApply, Settled;
      MoreApplied(p, init, last);
      CleanApply(ApplyLoop(p, init), last);
      ApplyStepSettles(ApplyLoop(p, init).world, last, item.event.sourceId);
      if item != last { ApplySettlesAny(p, init, item); }
    }
  }

  /** Main result. In whatever way a feed repeats its ids, after a pass without failure everything it was given
      is done or skipped; only a cancelled event of its own may be left as it was. */
  lemma NothingOpen(mode: Mode, w: World, feed: seq<Item>, broken: bool, item: Item)
    requires Clean(RunPass(mode, w, feed, broken)) && item in feed
    requires item.event.master.Some? || !item.event.cancelled
    ensures Settled(RunPass(mode, w, feed, broken).world, item.event.sourceId)
  {
    CleanParts(mode, w, feed, broken);
    hide RunPass, MainLoop, ApplyLoop, Settled;
    MainSettlesAny(mode, w, feed, item);
    ApplySettlesAny(MainLoop(mode, w, feed), MainLoop(mode, w, feed).exceptions, item);
  }

  lemma ActSound(w: World, a: Action)
    requires Sound(w)
    ensures Sound(Act(w, a))
  {
    ActOwns(w, a);
    hide OwnDests;
  }

  /** Whatever runs went before, from an empty store, the pass starts from a sound one. */
  lemma {:induction false} AlwaysSound(actions: seq<Action>)
    ensures Sound(After(World(map[], map[], map[], multiset{}), actions))
  {
    if actions != [] {
      hide Act, Sound;
      AlwaysSound(actions[..|actions| - 1]);
      ActSound(After(World(map[], map[], map[], multiset{}), actions[..|actions| - 1]), actions[|actions| - 1]);
    } else {
      hide Act;
    }
  }
}
