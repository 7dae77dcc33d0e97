/** What a contacts pass does to the store and to the destination (workloads/contacts_job.py,
    microsoft/contacts.py), and what every step keeps. */
module ContactsPass {
  import opened Wrappers
  import opened State

  datatype Mode = Full | Delta

  /** A contact as the connector delivers it; a deleted one is a tombstone. */
  datatype Contact = Contact(sourceId: SourceId, body: string, hash: string, deleted: bool)

  /** How the one Graph call that an item may make ends. A raising call has no effect. A process
      that dies does so before the call, or after it and before the store is written. */
  datatype Call = Succeeds | Raises | DiesBefore | DiesAfter

  datatype Item = Item(contact: Contact, call: Call)

  /** A destination contact: the item that created it, and the body last sent to it. */
  datatype Copy = Copy(owner: SourceId, body: string)

  type Rows = map<SourceId, Row<nat>>

  /** `next` is above every id the destination has given out. */
  datatype World = World(rows: Rows, live: map<nat, Copy>, next: nat)

  datatype Result = Fine | Failure | Death

  function DestOf(rows: Rows, id: SourceId): Option<nat> {
    if id in rows then rows[id].destId else None
  }

  function HashOf(rows: Rows, id: SourceId): Option<string> {
    if id in rows then rows[id].sourceHash else None
  }

  /** The hash column; an empty hash is stored as null. */
  function Marker(hash: string): Option<string> {
    if hash == "" then None else Some(hash)
  }

  predicate IsDone(rows: Rows, id: SourceId) {
    id in rows && rows[id].status.Done?
  }

  function WithRow(w: World, id: SourceId, row: Row<nat>): World {
    w.(rows := w.rows[id := row])
  }

  /** Deleting a contact that is already gone counts as done. */
  function Tombstone(w: World, id: SourceId, call: Call): (World, Result) {
    match DestOf(w.rows, id)
    case None => if call.DiesAfter? then (w, Death) else (WithRow(w, id, Row(Skipped, None, None)), Fine)
    case Some(dest) =>
      if call.Raises? then (WithRow(w, id, Row(Failed, Some(dest), None)), Failure)
      else
        var w' := w.(live := w.live - {dest});
        if call.DiesAfter? then (w', Death) else (WithRow(w', id, Row(Skipped, None, None)), Fine)
  }

  /** The item is left alone: done, and in a delta pass also unchanged. */
  predicate Unchanged(mode: Mode, rows: Rows, c: Contact) {
    IsDone(rows, c.sourceId) && (mode.Full? || (c.hash != "" && HashOf(rows, c.sourceId) == Some(c.hash)))
  }

  function Create(w: World, c: Contact): World {
    w.(live := w.live[w.next := Copy(c.sourceId, c.body)], next := w.next + 1)
  }

  function Update(w: World, dest: nat, body: string): World
    requires dest in w.live
  {
    w.(live := w.live[dest := w.live[dest].(body := body)])
  }

  /** Updates the recorded copy (a missing one raises) or creates a new one. */
  function Migrate(w: World, c: Contact, call: Call): (World, Result) {
    var dest := DestOf(w.rows, c.sourceId);
    if call.Raises? || (dest.Some? && dest.value !in w.live) then
      if call.DiesAfter? then (w, Death)
      else (WithRow(w, c.sourceId, Row(Failed, dest, HashOf(w.rows, c.sourceId))), Failure)
    else
      var w' := if dest.Some? then Update(w, dest.value, c.body) else Create(w, c);
      var id := if dest.Some? then dest.value else w.next;
      if call.DiesAfter? then (w', Death)
      else (WithRow(w', c.sourceId, Row(Done, Some(id), Marker(c.hash))), Fine)
  }

  /** One turn of the loop of run_contacts. */
  function Step(mode: Mode, w: World, item: Item): (World, Result) {
    var c := item.contact;
    if item.call.DiesBefore? then (w, Death)
    else if c.deleted then Tombstone(w, c.sourceId, item.call)
    else if Unchanged(mode, w.rows, c) then (w, if item.call.DiesAfter? then Death else Fine)
    else Migrate(w, c, item.call)
  }

  /** The loop: nothing happens after the process died. */
  datatype Progress = Progress(world: World, failures: nat, died: bool)

  function Advance(mode: Mode, p: Progress, item: Item): Progress {
    if p.died then p
    else
      var (w, r) := Step(mode, p.world, item);
      Progress(w, p.failures + if r.Failure? then 1 else 0, r.Death?)
  }

  function RunFeed(mode: Mode, w: World, feed: seq<Item>): Progress {
    if feed == [] then Progress(w, 0, false)
    else Advance(mode, RunFeed(mode, w, feed[..|feed| - 1]), feed[|feed| - 1])
  }

  predicate Clean(p: Progress) {
    p.failures == 0 && !p.died
  }

  lemma RunFeedStep(mode: Mode, w: World, feed: seq<Item>, item: Item)
    ensures RunFeed(mode, w, feed + [item]) == Advance(mode, RunFeed(mode, w, feed), item)
  {
    hide Advance;
    assert (feed + [item])[..|feed|] == feed;
  }

  // ----- how an item ends ------------------------------------------------------------------

  /** Main result. How an item ends when nobody dies. A tombstone deletes the recorded contact and forgets it; a
      done contact, in a delta one with its marker, is left alone; any other ends done under its marker with its body on the recorded
      contact, or on a new one; and if the call raises, or the recorded contact is gone, the item ends
      failed with its destination id, and nothing else changes. */
  lemma ItemEnds(mode: Mode, w: World, item: Item)
    requires item.call == Succeeds || item.call == Raises
    ensures var (w', r) := Step(mode, w, item);
            var c, id := item.contact, item.contact.sourceId;
            var row := if id in w.rows then w.rows[id] else Row(Pending, None, None);
            var gone := row.destId.Some? && row.destId.value !in w.live;
            var settled := row.status == Done && (mode == Delta ==> c.hash != "" && row.sourceHash == Some(c.hash));
            && (forall k: SourceId :: k != id ==> (k in w'.rows <==> k in w.rows) && (k in w.rows ==> w'.rows[k] == w.rows[k]))
            && if c.deleted then
                 if row.destId.Some? && item.call == Raises then
                   r == Failure && w'.live == w.live && id in w'.rows && w'.rows[id] == Row(Failed, row.destId, None)
                 else
                   r == Fine && id in w'.rows && w'.rows[id] == Row(Skipped, None, None)
                   && w'.live.Keys == w.live.Keys - (if row.destId.Some? then {row.destId.value} else {})
               else if settled then r == Fine && w' == w
               else if item.call == Raises || gone then
                 r == Failure && w'.live == w.live && id in w'.rows && w'.rows[id] == Row(Failed, row.destId, row.sourceHash)
               else
                 && r == Fine && id in w'.rows && w'.rows[id].status == Done && w'.rows[id].destId.Some?
                 && w'.rows[id].sourceHash == (if c.hash == "" then None else Some(c.hash))
                 && var dest := w'.rows[id].destId.value;
                    && dest in w'.live && w'.live[dest].body == c.body
                    && (row.destId.Some? ==> dest == row.destId.value && w'.live[dest].owner == w.live[dest].owner && w'.next == w.next)
                    && (row.destId.None? ==> dest == w.next && w'.live[dest].owner == id && w'.next == w.next + 1)
                    && w'.live.Keys == w.live.Keys + {dest} && forall k <- w.live :: k != dest ==> w'.live[k] == w.live[k]
  {
  }

  /** The process dies exactly if the call is one at which it does: before it nothing has happened, and after it
      the destination is as a call that succeeds leaves it, and the store as it was. */
  lemma ItemDies(mode: Mode, w: World, item: Item)
    ensures Step(mode, w, item).1.Death? <==> item.call == DiesBefore || item.call == DiesAfter
    ensures item.call == DiesBefore ==> Step(mode, w, item).0 == w
    ensures item.call == DiesAfter ==>
              Step(mode, w, item).0 == Step(mode, w, item.(call := Succeeds)).0.(rows := w.rows)
  {
  }

  /** A pass counts no more failures than it is given items; and if every recorded contact is live, and every call
      succeeds, it counts none. */
  lemma {:induction false} FailuresCounted(mode: Mode, w: World, feed: seq<Item>)
    ensures RunFeed(mode, w, feed).failures <= |feed|
    ensures DestIdsExact(w) && (forall item <- feed :: item.call == Succeeds) ==> Clean(RunFeed(mode, w, feed))
  {
    if feed != [] {
      var init, item := feed[..|feed| - 1], feed[|feed| - 1];
      assert feed == init + [item] && item in feed;
      hide Step, RunFeed, DestIdsExact;
      RunFeedStep(mode, w, init, item);
      FailuresCounted(mode, w, init);
      if DestIdsExact(w) && forall other <- feed :: other.call == Succeeds {
        DestIdsStayExact(mode, w, init);
        SucceedsFine(mode, RunFeed(mode, w, init).world, item);
      }
    }
  }

  lemma SucceedsFine(mode: Mode, w: World, item: Item)
    requires DestIdsExact(w) && item.call == Succeeds
    ensures Step(mode, w, item).1.Fine?
  {
  }

  // ----- the destination id ----------------------------------------------------------------

  /** A recorded destination id is a live contact made for that item, and every live contact is
      recorded by the item it was made for. */
  ghost predicate DestIdsExact(w: World) {
    && (forall dest <- w.live :: dest < w.next)
    && (forall id <- w.rows :: w.rows[id].destId.Some? ==>
          w.rows[id].destId.value in w.live && w.live[w.rows[id].destId.value].owner == id)
    && (forall dest <- w.live :: DestOf(w.rows, w.live[dest].owner) == Some(dest))
  }

  lemma MigrateExact(w: World, c: Contact, call: Call)
    requires DestIdsExact(w) && (call.Succeeds? || call.Raises?)
    ensures DestIdsExact(Migrate(w, c, call).0) && !Migrate(w, c, call).1.Death?
  {
  }

  lemma TombstoneExact(w: World, id: SourceId, call: Call)
    requires DestIdsExact(w) && (call.Succeeds? || call.Raises?)
    ensures DestIdsExact(Tombstone(w, id, call).0) && !Tombstone(w, id, call).1.Death?
  {
  }

  lemma StepExact(mode: Mode, w: World, item: Item)
    requires DestIdsExact(w) && (item.call.Succeeds? || item.call.Raises?)
    ensures DestIdsExact(Step(mode, w, item).0) && !Step(mode, w, item).1.Death?
  {
    MigrateExact(w, item.contact, item.call);
    TombstoneExact(w, item.contact.sourceId, item.call);
    hide Migrate, Tombstone, DestIdsExact;
  }

  /** Main result. In any mix of full and delta passes with any failures and no crash, a row has a
      destination id exactly as long as that contact is live, so that a source contact has at most
      one live copy. */
  lemma {:induction false} DestIdsStayExact(mode: Mode, w: World, feed: seq<Item>)
    requires DestIdsExact(w)
    requires forall item <- feed :: item.call.Succeeds? || item.call.Raises?
    ensures DestIdsExact(RunFeed(mode, w, feed).world) && !RunFeed(mode, w, feed).died
  {
    if feed != [] {
      var init, item := feed[..|feed| - 1], feed[|feed| - 1];
      assert feed == init + [item];
      assert item in feed;
      hide DestIdsExact, Step;
      RunFeedStep(mode, w, init, item);
      DestIdsStayExact(mode, w, init);
      StepExact(mode, RunFeed(mode, w, init).world, item);
    }
  }

  // ----- copies under crashes --------------------------------------------------------------

  function Copies(w: World, id: SourceId): set<nat> {
    set dest <- w.live | w.live[dest].owner == id
  }

  /** The process dies between creating the contact and recording it. */
  predicate TornCreate(mode: Mode, w: World, item: Item) {
    && item.call.DiesAfter? && !item.contact.deleted
    && !Unchanged(mode, w.rows, item.contact) && DestOf(w.rows, item.contact.sourceId).None?
  }

  /** Given-out ids are below `next`, and the contact that a row records is its own. */
  ghost predicate DestIdsOwned(w: World) {
    && (forall dest <- w.live :: dest < w.next)
    && (forall id <- w.rows :: w.rows[id].destId.Some? ==>
          && w.rows[id].destId.value < w.next
          && (w.rows[id].destId.value in w.live ==> w.live[w.rows[id].destId.value].owner == id))
  }

  function RecordedLive(w: World, id: SourceId): nat {
    if DestOf(w.rows, id).Some? && DestOf(w.rows, id).value in w.live then 1 else 0
  }

  /** At most `torn` live copies besides the recorded one. */
  ghost predicate CopiesBounded(w: World, id: SourceId, torn: nat) {
    DestIdsOwned(w) && |Copies(w, id)| <= torn + RecordedLive(w, id)
  }

  function TornFor(mode: Mode, w: World, item: Item, id: SourceId): nat {
    if TornCreate(mode, w, item) && item.contact.sourceId == id then 1 else 0
  }

  lemma MigrateOwned(w: World, c: Contact, call: Call)
    requires DestIdsOwned(w)
    ensures DestIdsOwned(Migrate(w, c, call).0)
  {
  }

  lemma StepOwned(mode: Mode, w: World, item: Item)
    requires DestIdsOwned(w)
    ensures DestIdsOwned(Step(mode, w, item).0)
  {
    hide Migrate;
    MigrateOwned(w, item.contact, item.call);
  }

  lemma TombstoneCopies(w: World, owner: SourceId, call: Call, id: SourceId)
    requires DestIdsOwned(w)
    ensures var w' := Tombstone(w, owner, call).0;
            |Copies(w', id)| <= |Copies(w, id)| - (RecordedLive(w, id) - RecordedLive(w', id))
  {
    var w' := Tombstone(w, owner, call).0;
    var dest := DestOf(w.rows, owner);
    if dest.Some? && !call.Raises? {
      assert Copies(w', id) == Copies(w, id) - {dest.value};
    } else {
      assert Copies(w', id) == Copies(w, id);
    }
  }

  lemma CreateCopies(w: World, c: Contact, id: SourceId)
    requires DestIdsOwned(w) && DestOf(w.rows, c.sourceId).None?
    ensures |Copies(Create(w, c), id)| == |Copies(w, id)| + if c.sourceId == id then 1 else 0
    ensures RecordedLive(Create(w, c), id) == RecordedLive(w, id)
  {
    assert Copies(Create(w, c), id) == if c.sourceId == id then Copies(w, id) + {w.next} else Copies(w, id);
  }

  lemma UpdateCopies(w: World, dest: nat, body: string, id: SourceId)
    requires dest in w.live
    ensures Copies(Update(w, dest, body), id) == Copies(w, id)
    ensures RecordedLive(Update(w, dest, body), id) == RecordedLive(w, id)
  {
  }

  lemma RowCopies(w: World, k: SourceId, row: Row<nat>, id: SourceId)
    ensures Copies(WithRow(w, k, row), id) == Copies(w, id)
    ensures RecordedLive(WithRow(w, k, row), id)
              == if k != id then RecordedLive(w, id)
                 else if row.destId.Some? && row.destId.value in w.live then 1 else 0
  {
  }

  lemma MigrateCopies(w: World, c: Contact, call: Call, id: SourceId)
    requires DestIdsOwned(w)
    ensures var w' := Migrate(w, c, call).0;
            |Copies(w', id)| <= |Copies(w, id)| + (RecordedLive(w', id) - RecordedLive(w, id))
              + if call.DiesAfter? && DestOf(w.rows, c.sourceId).None? && c.sourceId == id then 1 else 0
  {
    hide Copies, DestIdsOwned;
    var dest := DestOf(w.rows, c.sourceId);
    if dest.None? { CreateCopies(w, c, id); }
    else if dest.value in w.live { UpdateCopies(w, dest.value, c.body, id); }
    var (w', r) := Migrate(w, c, call);
    if !r.Death? {
      var moved := if r.Failure? then w else if dest.Some? then Update(w, dest.value, c.body) else Create(w, c);
      RowCopies(moved, c.sourceId, w'.rows[c.sourceId], id);
    }
  }

  lemma StepCopies(mode: Mode, w: World, item: Item, id: SourceId, torn: nat)
    requires CopiesBounded(w, id, torn)
    ensures CopiesBounded(Step(mode, w, item).0, id, torn + TornFor(mode, w, item, id))
  {
    StepOwned(mode, w, item);
    TombstoneCopies(w, item.contact.sourceId, item.call, id);
    MigrateCopies(w, item.contact, item.call, id);
    hide Tombstone, Migrate, DestIdsOwned, Copies, RecordedLive;
  }

  /** The crashes between create and row in a pass, for one item. */
  function TornIn(mode: Mode, w: World, feed: seq<Item>, id: SourceId): nat {
    if feed == [] then 0
    else
      var init, item := feed[..|feed| - 1], feed[|feed| - 1];
      var p := RunFeed(mode, w, init);
      TornIn(mode, w, init, id) + if p.died then 0 else TornFor(mode, p.world, item, id)
  }

  lemma TornInStep(mode: Mode, w: World, feed: seq<Item>, item: Item, id: SourceId)
    ensures var p := RunFeed(mode, w, feed);
            TornIn(mode, w, feed + [item], id) ==
              TornIn(mode, w, feed, id) + if p.died then 0 else TornFor(mode, p.world, item, id)
  {
    hide RunFeed, TornFor;
    assert (feed + [item])[..|feed|] == feed;
  }

  ghost predicate FeedBounded(mode: Mode, w: World, feed: seq<Item>, id: SourceId, torn: nat) {
    CopiesBounded(RunFeed(mode, w, feed).world, id, torn + TornIn(mode, w, feed, id))
  }

  lemma FeedBoundedStep(mode: Mode, w: World, feed: seq<Item>, item: Item, id: SourceId, torn: nat)
    requires FeedBounded(mode, w, feed, id, torn)
    ensures FeedBounded(mode, w, feed + [item], id, torn)
  {
    RunFeedStep(mode, w, feed, item);
    TornInStep(mode, w, feed, item, id);
    hide CopiesBounded, Step, TornFor, RunFeed, TornIn;
    var p := RunFeed(mode, w, feed);
    StepCopies(mode, p.world, item, id, torn + TornIn(mode, w, feed, id));
  }

  /** Main result. In any mix of modes, failures and crashes, a source contact has at most one live copy
      more than the crashes between its creation and its row. */
  lemma {:induction false} CopiesStayBounded(mode: Mode, w: World, feed: seq<Item>, id: SourceId, torn: nat)
    requires CopiesBounded(w, id, torn)
    ensures FeedBounded(mode, w, feed, id, torn)
  {
    if feed != [] {
      hide FeedBounded, CopiesBounded;
      var init, item := feed[..|feed| - 1], feed[|feed| - 1];
      assert feed == init + [item];
      CopiesStayBounded(mode, w, init, id, torn);
      FeedBoundedStep(mode, w, init, item, id, torn);
    }
  }

  // ----- sequences of passes ---------------------------------------------------------------

  /** One run of run_contacts: its mode, and the contacts it is given. */
  datatype Session = Session(mode: Mode, feed: seq<Item>)

  function Runs(w: World, runs: seq<Session>): World {
    if runs == [] then w
    else
      var run := runs[|runs| - 1];
      RunFeed(run.mode, Runs(w, runs[..|runs| - 1]), run.feed).world
  }

  function TornInRuns(w: World, runs: seq<Session>, id: SourceId): nat {
    if runs == [] then 0
    else
      var init, run := runs[..|runs| - 1], runs[|runs| - 1];
      TornInRuns(w, init, id) + TornIn(run.mode, Runs(w, init), run.feed, id)
  }

  predicate NoCrash(run: Session) {
    forall item <- run.feed :: item.call.Succeeds? || item.call.Raises?
  }

  /** Main result. Over any sequence of full and delta passes from an empty store, in any order, with
      any failures and crashes: a source contact has at most one live copy, plus one for every crash
      between its creation and its row; and without crashes a row has a destination id exactly as
      long as that contact is live. */
  lemma {:induction false} RunsKeepCopies(w: World, runs: seq<Session>, id: SourceId)
    requires w.rows == map[] && w.live == map[]
    ensures |Copies(Runs(w, runs), id)| <= 1 + TornInRuns(w, runs, id)
    ensures CopiesBounded(Runs(w, runs), id, TornInRuns(w, runs, id))
    ensures (forall run <- runs :: NoCrash(run)) ==> DestIdsExact(Runs(w, runs))
  {
    if runs != [] {
      var init, run := runs[..|runs| - 1], runs[|runs| - 1];
      assert runs == init + [run];
      hide DestIdsExact, TornIn, RunFeed, DestIdsOwned, Copies;
      RunsKeepCopies(w, init, id);
      CopiesStayBounded(run.mode, Runs(w, init), run.feed, id, TornInRuns(w, init, id));
      if forall r <- runs :: NoCrash(r) {
        assert run in runs;
        DestIdsStayExact(run.mode, Runs(w, init), run.feed);
      }
    } else {
      assert Copies(w, id) == {};
    }
  }
}
