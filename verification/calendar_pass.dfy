/** What a calendar pass does (workloads/calendar_job.py): masters and single events in one loop,
    changed occurrences of series deferred and applied after it. */
module CalendarPass {
  import opened Wrappers
  import opened State

  datatype Mode = Full | Delta

  /** A source event. `master` is set for a modified or cancelled occurrence of a series, which
      `start` locates in the series. */
  datatype Event = Event(sourceId: SourceId, body: string, cancelled: bool,
                         master: Option<SourceId>, start: Option<string>, hash: string)

  /** How the Graph call for an item ends; a raising call has no effect, and a process that dies does
      so before the call or between the call and the store. */
  datatype Call = Succeeds | Raises | DiesBefore | DiesAfter

  /** `found`: the destination series has an occurrence at `start`. */
  datatype Item = Item(event: Event, call: Call, found: bool)

  /** A destination event: the n-th one created for a source event, or an occurrence of a series. */
  datatype EventId = Made(source: SourceId, copy: nat) | Occurrence(series: EventId, start: string)

  datatype Change = Patched(body: string) | Deleted

  type Rows = map<SourceId, Row<EventId>>

  /** `live` holds the created events with the body last sent, `changes` what was done to the
      occurrences, `created` counts the creations. */
  datatype World = World(rows: Rows, live: map<EventId, string>, changes: map<EventId, Change>, created: multiset<SourceId>)

  datatype Result = Fine | Failure | Death | Deferred

  predicate IsDone(rows: Rows, id: SourceId) {
    id in rows && rows[id].status.Done?
  }

  function DestOf(rows: Rows, id: SourceId): Option<EventId> {
    if id in rows then rows[id].destId else None
  }

  function HashOf(rows: Rows, id: SourceId): Option<string> {
    if id in rows then rows[id].sourceHash else None
  }

  function Marker(hash: string): Option<string> {
    if hash == "" then None else Some(hash)
  }

  /** Done, and the change marker says nothing changed since. */
  predicate Unchanged(rows: Rows, e: Event) {
    IsDone(rows, e.sourceId) && e.hash != "" && HashOf(rows, e.sourceId) == Some(e.hash)
  }

  function WithRow(w: World, id: SourceId, row: Row<EventId>): World {
    w.(rows := w.rows[id := row])
  }

  /** _handle_cancelled: only a done row is looked at, a failing delete is swallowed, and the row keeps
      its destination id. */
  function Cancel(w: World, id: SourceId, call: Call): (World, Result) {
    var dest := DestOf(w.rows, id);
    if !IsDone(w.rows, id) || dest.None? || call.Raises? || dest.value !in w.live then
      (w, if call.DiesAfter? then Death else Fine)
    else
      var w' := w.(live := w.live - {dest.value});
      if call.DiesAfter? then (w', Death)
      else (WithRow(w', id, w.rows[id].(status := Skipped)), Fine)
  }

  /** Patches the recorded event (a missing one raises) or creates a new one. */
  function Migrate(w: World, e: Event, call: Call): (World, Result) {
    var dest := DestOf(w.rows, e.sourceId);
    if call.Raises? || (dest.Some? && dest.value !in w.live) then
      if call.DiesAfter? then (w, Death)
      else (WithRow(w, e.sourceId, Row(Failed, dest, HashOf(w.rows, e.sourceId))), Failure)
    else
      var id := if dest.Some? then dest.value else Made(e.sourceId, w.created[e.sourceId]);
      var created := if dest.Some? then w.created else w.created + multiset{e.sourceId};
      var w' := w.(live := w.live[id := e.body], created := created);
      if call.DiesAfter? then (w', Death)
      else (WithRow(w', e.sourceId, Row(Done, Some(id), Marker(e.hash))), Fine)
  }

  /** One turn of the main loop; an occurrence is deferred. */
  function MainStep(mode: Mode, w: World, item: Item): (World, Result) {
    var e := item.event;
    if item.call.DiesBefore? then (w, Death)
    else if IsDone(w.rows, e.sourceId) && mode.Full? && !e.cancelled then (w, Fine)
    else if e.master.Some? then (w, Deferred)
    else if e.cancelled then Cancel(w, e.sourceId, item.call)
    else if Unchanged(w.rows, e) then (w, Fine)
    else Migrate(w, e, item.call)
  }

  function SeriesOf(w: World, e: Event): Option<EventId> {
    if e.master.Some? && IsDone(w.rows, e.master.value) then DestOf(w.rows, e.master.value) else None
  }

  /** The occurrence that a deferred item is applied to: its master is migrated, and the instance of
      its original start is found. */
  function Instance(w: World, item: Item): Option<EventId> {
    var series := SeriesOf(w, item.event);
    if series.Some? && item.event.start.Some? && !item.call.Raises? && item.found then
      Some(Occurrence(series.value, item.event.start.value))
    else None
  }

  function ChangeOf(e: Event): Change {
    if e.cancelled then Deleted else Patched(e.body)
  }

  /** _apply_exception. */
  function ApplyStep(w: World, item: Item): (World, Result) {
    var e := item.event;
    var instance := Instance(w, item);
    if item.call.DiesBefore? then (w, Death)
    else if Unchanged(w.rows, e) then (w, Fine)
    else if instance.Some? then
      var w' := w.(changes := w.changes[instance.value := ChangeOf(e)]);
      if item.call.DiesAfter? then (w', Death)
      else (WithRow(w', e.sourceId, Row(Done, instance, Marker(e.hash))), Fine)
    else if SeriesOf(w, e).Some? && e.start.Some? && !item.call.Raises? && e.cancelled then
      // Nothing to delete: the occurrence is already gone.
      (WithRow(w, e.sourceId, Row(Skipped, None, None)), Fine)
    else
      (WithRow(w, e.sourceId, Row(Failed, None, None)), Failure)
  }

  datatype Progress = Progress(world: World, failures: nat, died: bool, exceptions: seq<Item>)

  function AdvanceMain(mode: Mode, p: Progress, item: Item): Progress {
    if p.died then p
    else
      var (w, r) := MainStep(mode, p.world, item);
      Progress(w, p.failures + (if r.Failure? then 1 else 0), r.Death?, p.exceptions + if r.Deferred? then [item] else [])
  }

  function MainLoop(mode: Mode, w: World, feed: seq<Item>): Progress {
    if feed == [] then Progress(w, 0, false, [])
    else AdvanceMain(mode, MainLoop(mode, w, feed[..|feed| - 1]), feed[|feed| - 1])
  }

  function AdvanceApply(p: Progress, item: Item): Progress {
    if p.died then p
    else
      var (w, r) := ApplyStep(p.world, item);
      p.(world := w, failures := p.failures + (if r.Failure? then 1 else 0), died := r.Death?)
  }

  function ApplyLoop(p: Progress, exceptions: seq<Item>): Progress {
    if exceptions == [] then p
    else AdvanceApply(ApplyLoop(p, exceptions[..|exceptions| - 1]), exceptions[|exceptions| - 1])
  }

  /** A pass over one calendar; `broken` if the enumeration raised at its end. */
  function RunPass(mode: Mode, w: World, feed: seq<Item>, broken: bool): Progress {
    var p := MainLoop(mode, w, feed);
    ApplyLoop(if broken then p.(failures := p.failures + 1) else p, p.exceptions)
  }

  predicate Clean(p: Progress) {
    p.failures == 0 && !p.died
  }

  // ----- how an item ends ------------------------------------------------------------------

  ghost predicate OthersSame(w: World, w': World, id: SourceId) {
    forall k: SourceId :: k != id ==> (k in w'.rows <==> k in w.rows) && (k in w.rows ==> w'.rows[k] == w.rows[k])
  }

  /** How an item ends in the main loop when nobody dies. A full pass leaves a done event alone; an occurrence is
      deferred; a cancelled event loses its copy if it is done and the delete succeeds, and is otherwise left
      alone; a done event with its marker is left alone; any other ends done with its body on the recorded
      event, or on a new one; and if the call raises, or the recorded event is gone, it ends failed with its
      destination id and hash, and nothing else changes. */
  lemma MainEnds(mode: Mode, w: World, item: Item)
    requires item.call == Succeeds || item.call == Raises
    ensures var (w', r) := MainStep(mode, w, item);
            var e, id := item.event, item.event.sourceId;
            var row := if id in w.rows then w.rows[id] else Row(Pending, None, None);
            var lives := row.destId.Some? && row.destId.value in w.live;
            && OthersSame(w, w', id) && w'.changes == w.changes
            && if mode == Full && row.status == Done && !e.cancelled then r == Fine && w' == w
               else if e.master.Some? then r == Deferred && w' == w
               else if e.cancelled then
                 r == Fine &&
                 if row.status == Done && lives && item.call == Succeeds then
                   && id in w'.rows && w'.rows[id] == Row(Skipped, row.destId, row.sourceHash)
                   && w'.live == w.live - {row.destId.value} && w'.created == w.created
                 else w' == w
               else if row.status == Done && e.hash != "" && row.sourceHash == Some(e.hash) then r == Fine && w' == w
               else if item.call == Raises || (row.destId.Some? && !lives) then
                 && r == Failure && w'.live == w.live && w'.created == w.created
                 && id in w'.rows && w'.rows[id] == Row(Failed, row.destId, row.sourceHash)
               else
                 && r == Fine && id in w'.rows && w'.rows[id].status == Done && w'.rows[id].destId.Some?
                 && w'.rows[id].sourceHash == (if e.hash == "" then None else Some(e.hash))
                 && w'.live == w.live[w'.rows[id].destId.value := e.body]
                 && if row.destId.Some? then w'.rows[id].destId == row.destId && w'.created == w.created
                    else w'.rows[id].destId == Some(Made(id, w.created[id])) && w'.created == w.created + multiset{id}
  {
  }

  /** How a deferred item ends when nobody dies. One that is done with its marker is left alone. Otherwise, if its
      master is done, its start is known and the call succeeds, its instance is patched or deleted and
      recorded; or, if there is none, a cancelled one is skipped. Everything else is a failure: the row says
      so, and nothing else changes. */
  lemma AppliedEnds(w: World, item: Item)
    requires item.call == Succeeds || item.call == Raises
    ensures var (w', r) := ApplyStep(w, item);
            var e, id := item.event, item.event.sourceId;
            var master := if e.master.Some? && e.master.value in w.rows then w.rows[e.master.value] else Row(Pending, None, None);
            var matches := master.status == Done && master.destId.Some? && e.start.Some? && item.call == Succeeds;
            && OthersSame(w, w', id) && w'.live == w.live && w'.created == w.created
            && if id in w.rows && w.rows[id].status == Done && e.hash != "" && w.rows[id].sourceHash == Some(e.hash) then
                 r == Fine && w' == w
               else
                 && id in w'.rows
                 && if matches && item.found then
                      var instance := Occurrence(master.destId.value, e.start.value);
                      && r == Fine && w'.rows[id] == Row(Done, Some(instance), if e.hash == "" then None else Some(e.hash))
                      && w'.changes == w.changes[instance := if e.cancelled then Deleted else Patched(e.body)]
                    else if matches && e.cancelled then
                      r == Fine && w'.rows[id] == Row(Skipped, None, None) && w'.changes == w.changes
                    else
                      r == Failure && w'.rows[id] == Row(Failed, None, None) && w'.changes == w.changes
  {
  }

  /** An event of its own that the main loop does not leave alone. */
  predicate Handled(mode: Mode, w: World, e: Event) {
    e.master.None? && !(mode == Full && IsDone(w.rows, e.sourceId) && !e.cancelled) && (e.cancelled || !Unchanged(w.rows, e))
  }

  lemma ItemDiesApplied(w: World, item: Item)
    ensures item.call == DiesBefore ==> ApplyStep(w, item) == (w, Death)
    ensures item.call == DiesAfter ==>
              && (ApplyStep(w, item).1.Death? <==> !Unchanged(w.rows, item.event) && Instance(w, item).Some?)
              && (ApplyStep(w, item).1.Death? ==>
                    ApplyStep(w, item).0 == ApplyStep(w, item.(call := Succeeds)).0.(rows := w.rows))
  {
  }

  /** The process dies where the call of the item says: before it nothing has happened, and after it the destination
      is as a call that succeeds leaves it, and the store as it was. */
  lemma ItemDies(mode: Mode, w: World, item: Item)
    ensures item.call == DiesBefore ==> MainStep(mode, w, item) == (w, Death) && ApplyStep(w, item) == (w, Death)
    ensures item.call == DiesAfter ==>
              && MainStep(mode, w, item).0 == MainStep(mode, w, item.(call := Succeeds)).0.(rows := w.rows)
              && (MainStep(mode, w, item).1.Death? <==> Handled(mode, w, item.event))
              && (ApplyStep(w, item).1.Death? <==> !Unchanged(w.rows, item.event) && Instance(w, item).Some?)
              && (ApplyStep(w, item).1.Death? ==>
                    ApplyStep(w, item).0 == ApplyStep(w, item.(call := Succeeds)).0.(rows := w.rows))
  {
    ItemDiesApplied(w, item);
    hide ApplyStep;
  }

  lemma {:induction false} MainCounted(mode: Mode, w: World, feed: seq<Item>)
    ensures MainLoop(mode, w, feed).failures + |MainLoop(mode, w, feed).exceptions| <= |feed|
  {
    if feed != [] {
      hide MainStep;
      MainCounted(mode, w, feed[..|feed| - 1]);
    }
  }

  lemma {:induction false} ApplyCounted(p: Progress, items: seq<Item>)
    ensures ApplyLoop(p, items).failures <= p.failures + |items|
  {
    if items != [] {
      hide ApplyStep;
      ApplyCounted(p, items[..|items| - 1]);
    }
  }

  /** A pass counts no more failures than it is given items, and one more if the enumeration breaks. */
  lemma FailuresCounted(mode: Mode, w: World, feed: seq<Item>, broken: bool)
    ensures RunPass(mode, w, feed, broken).failures <= |feed| + if broken then 1 else 0
  {
    hide MainLoop, ApplyLoop;
    var p := MainLoop(mode, w, feed);
    MainCounted(mode, w, feed);
    ApplyCounted(if broken then p.(failures := p.failures + 1) else p, p.exceptions);
  }

  // ----- one creation per event ------------------------------------------------------------

  /** At most `torn` creations besides the recorded one. */
  predicate CreatedOnce(w: World, id: SourceId, torn: nat) {
    w.created[id] <= torn + if DestOf(w.rows, id).Some? then 1 else 0
  }

  /** The process dies between creating the event and recording it. */
  function TornCreate(mode: Mode, w: World, item: Item, id: SourceId): nat {
    if item.event.sourceId == id && item.call.DiesAfter? && MainStep(mode, w, item).0.created != w.created then 1 else 0
  }

  predicate KeepsDest(w: World, w': World, id: SourceId) {
    DestOf(w.rows, id).Some? ==> DestOf(w'.rows, id) == DestOf(w.rows, id)
  }

  /** The item treats `id` as an event of its own, not as an occurrence. */
  predicate NoOccurrence(item: Item, id: SourceId) {
    item.event.sourceId == id ==> item.event.master.None?
  }

  lemma MainCreates(mode: Mode, w: World, item: Item, id: SourceId, torn: nat)
    requires CreatedOnce(w, id, torn)
    ensures var w' := MainStep(mode, w, item).0;
            CreatedOnce(w', id, torn + TornCreate(mode, w, item, id)) && KeepsDest(w, w', id)
  {
  }

  lemma ApplyCreates(w: World, item: Item, id: SourceId, torn: nat)
    requires CreatedOnce(w, id, torn) && item.event.sourceId != id
    ensures CreatedOnce(ApplyStep(w, item).0, id, torn) && KeepsDest(w, ApplyStep(w, item).0, id)
  {
  }

  /** An arbitrary run of the job, crashes included, is a sequence of these steps. */
  datatype Action = Main(mode: Mode, item: Item) | Apply(item: Item)

  function Act(w: World, a: Action): World {
    match a
    case Main(mode, item) => MainStep(mode, w, item).0
    case Apply(item) => ApplyStep(w, item).0
  }

  function After(w: World, actions: seq<Action>): World {
    if actions == [] then w else Act(After(w, actions[..|actions| - 1]), actions[|actions| - 1])
  }

  function TornIn(w: World, actions: seq<Action>, id: SourceId): nat {
    if actions == [] then 0
    else
      var init, a := actions[..|actions| - 1], actions[|actions| - 1];
      TornIn(w, init, id) + if a.Main? then TornCreate(a.mode, After(w, init), a.item, id) else 0
  }

  /** Only occurrences are applied. */
  predicate Proper(a: Action, id: SourceId) {
    NoOccurrence(a.item, id) && (a.Apply? ==> a.item.event.master.Some?)
  }

  lemma ActCreates(w: World, a: Action, id: SourceId, torn: nat)
    requires CreatedOnce(w, id, torn) && Proper(a, id)
    ensures CreatedOnce(Act(w, a), id, torn + if a.Main? then TornCreate(a.mode, w, a.item, id) else 0)
    ensures KeepsDest(w, Act(w, a), id)
  {
    if a.Main? { MainCreates(a.mode, w, a.item, id, torn); } else { ApplyCreates(w, a.item, id, torn); }
  }

  /** Main result. Over any runs, in any mix of modes with any failures and crashes, an event that is
      not an occurrence is created at most once, plus once for every crash between its creation and
      its row, and once recorded its destination id never changes. */
  lemma {:induction false} CreatedAtMostOnce(w: World, actions: seq<Action>, id: SourceId, torn: nat)
    requires CreatedOnce(w, id, torn)
    requires forall a <- actions :: Proper(a, id)
    ensures CreatedOnce(After(w, actions), id, torn + TornIn(w, actions, id)) && KeepsDest(w, After(w, actions), id)
  {
    if actions != [] {
      var init, a := actions[..|actions| - 1], actions[|actions| - 1];
      assert a in actions;
      CreatedAtMostOnce(w, init, id, torn);
      hide Act, TornCreate, Proper;
      ActCreates(After(w, init), a, id, torn + TornIn(w, init, id));
    }
  }

  // ----- cancelled events ------------------------------------------------------------------

  /** The event has a copy at the destination. */
  predicate Lives(w: World, id: SourceId) {
    DestOf(w.rows, id).Some? && DestOf(w.rows, id).value in w.live
  }

  /** The repository's README says that cancelled events are removed. A step that ends well without a crash removes
      the copy of a cancelled event if and only if its row is done and the delete does not raise: a
      failing delete and a copy whose last update failed are passed over in silence. */
  lemma CancelledRemoved(mode: Mode, w: World, item: Item)
    requires item.event.cancelled && item.event.master.None? && Lives(w, item.event.sourceId)
    requires item.call.Succeeds? || item.call.Raises?
    ensures var (w', r) := MainStep(mode, w, item);
            && r.Fine?
            && (Lives(w', item.event.sourceId) <==> !IsDone(w.rows, item.event.sourceId) || item.call.Raises?)
            && (Lives(w', item.event.sourceId) || Buried(w', item.event.sourceId))
  {
  }

  /** The recorded event is gone. */
  predicate Buried(w: World, id: SourceId) {
    DestOf(w.rows, id).Some? && DestOf(w.rows, id).value !in w.live && !IsDone(w.rows, id)
  }

  /** Each recorded event was made for its row. */
  ghost predicate OwnDests(w: World) {
    forall id <- w.rows :: w.rows[id].destId.Some? ==>
      match w.rows[id].destId.value
      case Made(source, copy) => source == id && copy < w.created[id]
      case Occurrence(_, _) => true
  }

  lemma MigrateOwns(w: World, e: Event, call: Call)
    requires OwnDests(w)
    ensures OwnDests(Migrate(w, e, call).0)
  {
  }

  lemma ActOwns(w: World, a: Action)
    requires OwnDests(w)
    ensures OwnDests(Act(w, a))
  {
    MigrateOwns(w, a.item.event, a.item.call);
    hide Migrate, Unchanged, SeriesOf;
  }

  lemma ActBuried(w: World, a: Action, id: SourceId)
    requires OwnDests(w) && Buried(w, id) && DestOf(w.rows, id).value.Made? && Proper(a, id)
    ensures Buried(Act(w, a), id) && KeepsDest(w, Act(w, a), id)
  {
  }

  /** A cancelled event that was removed never comes back: whatever the runs do afterwards, its row
      keeps the dead id, and reinstating the event fails every time and holds the cursor back. */
  lemma {:induction false} CancelledForGood(w: World, actions: seq<Action>, id: SourceId, mode: Mode, item: Item)
    requires OwnDests(w) && Buried(w, id) && DestOf(w.rows, id).value.Made?
    requires forall a <- actions :: Proper(a, id)
    requires item.event.sourceId == id && item.event.master.None? && !item.event.cancelled
    requires item.call.Succeeds? || item.call.Raises?
    ensures var w' := After(w, actions);
            && OwnDests(w') && Buried(w', id) && DestOf(w'.rows, id) == DestOf(w.rows, id)
            && MainStep(mode, w', item).1.Failure?
  {
    if actions != [] {
      var init, a := actions[..|actions| - 1], actions[|actions| - 1];
      assert a in actions;
      CancelledForGood(w, init, id, mode, item);
      hide Act, OwnDests, Proper;
      ActOwns(After(w, init), a);
      ActBuried(After(w, init), a, id);
    }
  }
}
