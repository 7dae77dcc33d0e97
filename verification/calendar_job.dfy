/** run_calendar itself, for one calendar (workloads/calendar_job.py), proved to compute
    CalendarPass. */
module CalendarJob {
  import opened Wrappers
  import opened State
  import opened CalendarPass

  class Job {
    const store: Store<EventId, string>
    /** The destination, reached through the Graph client. */
    var live: map<EventId, string>
    var changes: map<EventId, Change>
    ghost var created: multiset<SourceId>
    var made: map<SourceId, nat>

    ghost predicate Valid()
      reads this
    {
      forall id: SourceId :: created[id] == if id in made then made[id] else 0
    }

    constructor (store: Store<EventId, string>)
      ensures this.store == store && Valid() && live == map[] && changes == map[] && created == multiset{}
    {
      this.store := store;
      live, changes, created, made := map[], map[], multiset{}, map[];
    }

    ghost function Abs(): World
      reads this, store
    {
      World(store.items, live, changes, created)
    }

    /** _handle_cancelled. */
    method HandleCancelled(id: SourceId, call: Call) returns (r: Result)
      requires !call.DiesBefore?
      modifies this`live, store`items
      ensures (Abs(), r) == Cancel(old(Abs()), id, call)
    {
      if store.IsDone(id) {
        var row := store.items[id];
        if row.destId.Some? && !call.Raises? && row.destId.value in live {
          live := live - {row.destId.value};
          if call.DiesAfter? {
            return Death;
          }
          store.items := store.items[id := row.(status := Skipped)];
          return Fine;
        }
      }
      return if call.DiesAfter? then Death else Fine;
    }

    /** create_event; None if it raises. */
    method CreateEvent(id: SourceId, body: string, raises: bool) returns (dest: Option<EventId>)
      requires Valid()
      modifies this`live, this`created, this`made
      ensures Valid()
      ensures dest == if raises then None else Some(Made(id, old(created)[id]))
      ensures live == if raises then old(live) else old(live)[dest.value := body]
      ensures created == if raises then old(created) else old(created) + multiset{id}
    {
      if raises {
        return None;
      }
      var copy := if id in made then made[id] else 0;
      made := made[id := copy + 1];
      created := created + multiset{id};
      dest := Some(Made(id, copy));
      live := live[dest.value := body];
    }

    /** patch_event; a missing event raises. */
    method PatchEvent(dest: EventId, body: string, raises: bool) returns (raised: bool)
      modifies this`live
      ensures raised <==> raises || dest !in old(live)
      ensures live == if raised then old(live) else old(live)[dest := body]
    {
      if raises || dest !in live {
        return true;
      }
      live := live[dest := body];
      return false;
    }

    method MigrateEvent(e: Event, call: Call) returns (r: Result)
      requires Valid() && !call.DiesBefore?
      modifies this, store`items
      ensures Valid() && (Abs(), r) == Migrate(old(Abs()), e, call)
    {
      var state := store.ItemState(e.sourceId);
      var existing := if state.Some? then state.value.destId else None;
      var dest, raised := existing, false;
      if existing.Some? {
        raised := PatchEvent(existing.value, e.body, call.Raises?);
      } else {
        dest := CreateEvent(e.sourceId, e.body, call.Raises?);
        raised := dest.None?;
      }
      if call.DiesAfter? {
        return Death;
      }
      if raised {
        store.UpsertItem(e.sourceId, Failed, existing, if state.Some? then state.value.sourceHash else None);
        return Failure;
      }
      store.UpsertItem(e.sourceId, Done, dest, Marker(e.hash));
      return Fine;
    }

    /** One turn of the main loop. */
    method ProcessEvent(mode: Mode, item: Item) returns (r: Result)
      requires Valid()
      modifies this, store`items
      ensures Valid() && (Abs(), r) == MainStep(mode, old(Abs()), item)
    {
      var e := item.event;
      if item.call.DiesBefore? {
        return Death;
      }
      var done := store.IsDone(e.sourceId);
      if done && !mode.Delta? && !e.cancelled {
        return Fine;
      }
      if e.master.Some? {
        return Deferred;
      }
      if e.cancelled {
        r := HandleCancelled(e.sourceId, item.call);
        return;
      }
      if done && e.hash != "" && store.ItemHash(e.sourceId) == Some(e.hash) {
        return Fine;
      }
      r := MigrateEvent(e, item.call);
    }

    /** _apply_exception. */
    method ApplyException(item: Item) returns (r: Result)
      requires Valid() && item.event.master.Some?
      modifies this`changes, store`items
      ensures Valid() && (Abs(), r) == ApplyStep(old(Abs()), item)
    {
      var e := item.event;
      if item.call.DiesBefore? {
        return Death;
      }
      var master := store.DestId(e.master.value);
      if store.IsDone(e.sourceId) && e.hash != "" && store.ItemHash(e.sourceId) == Some(e.hash) {
        return Fine;
      }
      if master.None? || e.start.None? || item.call.Raises? {
        store.UpsertItem(e.sourceId, Failed, None, None);
        return Failure;
      }
      if !item.found {
        store.UpsertItem(e.sourceId, if e.cancelled then Skipped else Failed, None, None);
        return if e.cancelled then Fine else Failure;
      }
      var instance := Occurrence(master.value, e.start.value);
      changes := changes[instance := ChangeOf(e)];
      if item.call.DiesAfter? {
        return Death;
      }
      store.UpsertItem(e.sourceId, Done, Some(instance), Marker(e.hash));
      return Fine;
    }

    /** The main loop. */
    method ProcessAll(mode: Mode, feed: seq<Item>) returns (failures: nat, exceptions: seq<Item>, died: bool)
      requires Valid()
      modifies this, store`items
      ensures Valid()
      ensures var p := MainLoop(mode, old(Abs()), feed);
              && Abs() == p.world && died == p.died
              && (!died ==> failures == p.failures && exceptions == p.exceptions)
      ensures forall item <- exceptions :: item.event.master.Some?
    {
      hide MainStep, MainLoop;
      ghost var start := Abs();
      failures, exceptions, died := 0, [], false;
      EmptyMain(mode, start, feed[..0]);
      for i := 0 to |feed|
        invariant Valid()
        invariant Progress(Abs(), failures, false, exceptions) == MainLoop(mode, start, feed[..i])
        invariant forall item <- exceptions :: item.event.master.Some?
      {
        OneMoreMain(mode, start, feed, i);
        DeferredIsOccurrence(mode, Abs(), feed[i]);
        var r := ProcessEvent(mode, feed[i]);
        if r.Death? {
          DeadMain(mode, start, feed, i + 1, |feed|);
          assert feed[..|feed|] == feed;
          return failures, exceptions, true;
        }
        failures := failures + if r.Failure? then 1 else 0;
        exceptions := exceptions + if r.Deferred? then [feed[i]] else [];
      }
      assert feed[..|feed|] == feed;
    }

    /** The loop over the deferred occurrences, after `before` failures. */
    method ApplyAll(exceptions: seq<Item>, before: nat) returns (failures: nat, died: bool)
      requires Valid() && forall item <- exceptions :: item.event.master.Some?
      modifies this, store`items
      ensures Valid()
      ensures var p := ApplyLoop(Progress(old(Abs()), before, false, exceptions), exceptions);
              Abs() == p.world && died == p.died && (!died ==> failures == p.failures)
    {
      hide ApplyStep, ApplyLoop;
      ghost var base := Progress(Abs(), before, false, exceptions);
      failures, died := before, false;
      EmptyApply(base, exceptions[..0]);
      for i := 0 to |exceptions|
        invariant Valid()
        invariant Progress(Abs(), failures, false, exceptions) == ApplyLoop(base, exceptions[..i])
      {
        OneMoreApply(base, exceptions, i);
        assert exceptions[i] in exceptions;
        var r := ApplyException(exceptions[i]);
        if r.Death? {
          DeadApply(base, exceptions, i + 1, |exceptions|);
          assert exceptions[..|exceptions|] == exceptions;
          return failures, true;
        }
        failures := failures + if r.Failure? then 1 else 0;
      }
      assert exceptions[..|exceptions|] == exceptions;
    }

    /** run_calendar on one calendar: a delta without a cursor is refused; the cursor moves only if no
        item failed and the enumeration ended. */
    method Run(mode: Mode, feed: seq<Item>, broken: bool, newCursor: Option<string>) returns (died: bool)
      requires Valid()
      modifies this, store
      ensures Valid()
      ensures mode.Delta? && old(store.cursor).None? ==>
                !died && Abs() == old(Abs()) && store.cursor == old(store.cursor)
      ensures !(mode.Delta? && old(store.cursor).None?) ==>
                var p := RunPass(mode, old(Abs()), feed, broken);
                && Abs() == p.world && died == p.died
                && store.cursor == if Clean(p) && newCursor.Some? then newCursor else old(store.cursor)
    {
      if mode.Delta? && store.cursor.None? {
        return false;
      }
      hide RunPass, Valid;
      var failures;
      failures, died := RunLoops(mode, feed, broken);
      if !died && newCursor.Some? && failures == 0 {
        SaveCursor(newCursor.value);
      }
    }

    /** The two loops of _run_calendar. */
    method RunLoops(mode: Mode, feed: seq<Item>, broken: bool) returns (failures: nat, died: bool)
      requires Valid()
      modifies this, store
      ensures Valid() && store.cursor == old(store.cursor)
      ensures var p := RunPass(mode, old(Abs()), feed, broken);
              Abs() == p.world && died == p.died && (!died ==> failures == p.failures)
    {
      PassParts(mode, Abs(), feed, broken);
      hide MainLoop, ApplyLoop, RunPass;
      var exceptions;
      failures, exceptions, died := ProcessAll(mode, feed);
      if !died {
        failures, died := ApplyAll(exceptions, failures + if broken then 1 else 0);
      }
    }

    method SaveCursor(value: string)
      requires Valid()
      modifies store`cursor
      ensures Valid() && Abs() == old(Abs()) && store.cursor == Some(value)
    {
      store.SaveCursor(value);
    }
  }

  /** A pass is its two loops; if the process dies in the first, the second does nothing. */
  lemma PassParts(mode: Mode, w: World, feed: seq<Item>, broken: bool)
    ensures var main := MainLoop(mode, w, feed);
            var p := RunPass(mode, w, feed, broken);
            if main.died then p.world == main.world && p.died
            else p == ApplyLoop(main.(failures := main.failures + if broken then 1 else 0), main.exceptions)
  {
    hide MainLoop, ApplyLoop;
    var main := MainLoop(mode, w, feed);
    if main.died {
      var p := if broken then main.(failures := main.failures + 1) else main;
      EmptyApply(p, p.exceptions[..0]);
      DeadApply(p, p.exceptions, 0, |p.exceptions|);
      assert p.exceptions[..|p.exceptions|] == p.exceptions;
    }
  }

  lemma EmptyMain(mode: Mode, w: World, feed: seq<Item>)
    requires feed == []
    ensures MainLoop(mode, w, feed) == Progress(w, 0, false, [])
  {
  }

  lemma EmptyApply(p: Progress, items: seq<Item>)
    requires items == []
    ensures ApplyLoop(p, items) == p
  {
  }

  lemma DeferredIsOccurrence(mode: Mode, w: World, item: Item)
    ensures MainStep(mode, w, item).1.Deferred? ==> item.event.master.Some?
  {
  }

  lemma OneMoreMain(mode: Mode, w: World, feed: seq<Item>, i: nat)
    requires i < |feed|
    ensures MainLoop(mode, w, feed[..i + 1]) == AdvanceMain(mode, MainLoop(mode, w, feed[..i]), feed[i])
  {
    hide AdvanceMain;
    var init, item := feed[..i], feed[i];
    assert feed[..i + 1] == init + [item];
    assert (init + [item])[..i] == init;
  }

  lemma DeadMain(mode: Mode, w: World, feed: seq<Item>, i: nat, j: nat)
    requires i <= j <= |feed| && MainLoop(mode, w, feed[..i]).died
    ensures MainLoop(mode, w, feed[..j]) == MainLoop(mode, w, feed[..i])
  {
    hide MainLoop, MainStep;
    if i < j {
      DeadMain(mode, w, feed, i, j - 1);
      OneMoreMain(mode, w, feed, j - 1);
    }
  }

  lemma OneMoreApply(p: Progress, items: seq<Item>, i: nat)
    requires i < |items|
    ensures ApplyLoop(p, items[..i + 1]) == AdvanceApply(ApplyLoop(p, items[..i]), items[i])
  {
    hide AdvanceApply;
    var init, item := items[..i], items[i];
    assert items[..i + 1] == init + [item];
    assert (init + [item])[..i] == init;
  }

  lemma DeadApply(p: Progress, items: seq<Item>, i: nat, j: nat)
    requires i <= j <= |items| && ApplyLoop(p, items[..i]).died
    ensures ApplyLoop(p, items[..j]) == ApplyLoop(p, items[..i])
  {
    hide ApplyLoop, ApplyStep;
    if i < j {
      DeadApply(p, items, i, j - 1);
      OneMoreApply(p, items, j - 1);
    }
  }
}
