/** What a mail pass does to the store and to the destination (workloads/mail_job.py): at most one
    import per message, `done` for good, and a cursor that never passes an unfinished message. */
module MailPass {
  import opened Wrappers
  import opened State

  /** How an import ends. A raising import creates nothing. A process that dies does so before the
      import, or after it and before the store is written. */
  datatype Call = Succeeds | Raises | DiesBefore | DiesAfter

  /** A message as the connector delivers it: fetched or not, with its de-duplication hash; how the
      import into its first folder ends, and the best-effort imports into the others. */
  datatype Item = Item(sourceId: SourceId, fetchError: bool, dedupHash: string, primary: Call, extras: seq<Call>)

  type Rows = map<SourceId, Row<nat>>

  /** An imported message: what it is a copy of, and whether it is the one in the first folder. */
  datatype Copy = Copy(source: SourceId, primary: bool)

  /** `copies` are the imports that succeeded, `next` is the next message id. */
  datatype World = World(rows: Rows, copies: map<nat, Copy>, next: nat)

  datatype Result = Fine | Failure | Death

  predicate IsDone(rows: Rows, id: SourceId) {
    id in rows && rows[id].status.Done?
  }

  function WithRow(w: World, id: SourceId, row: Row<nat>): World {
    w.(rows := w.rows[id := row])
  }

  /** The row of an imported message; an empty hash is stored as null. */
  function DoneRow(dest: nat, dedupHash: string): Row<nat> {
    Row(Done, Some(dest), if dedupHash == "" then None else Some(dedupHash))
  }

  function Import(w: World, id: SourceId, primary: bool): World {
    w.(copies := w.copies[w.next := Copy(id, primary)], next := w.next + 1)
  }

  /** The copies into the other folders: a failing one is skipped. */
  function ImportExtras(w: World, id: SourceId, extras: seq<Call>): (World, Result) {
    if extras == [] then (w, Fine)
    else
      var (w', r) := ImportExtras(w, id, extras[..|extras| - 1]);
      if r.Death? then (w', r)
      else match extras[|extras| - 1]
        case DiesBefore => (w', Death)
        case DiesAfter => (Import(w', id, false), Death)
        case Raises => (w', Fine)
        case Succeeds => (Import(w', id, false), Fine)
  }

  /** One turn of the loop of run_mail. The row is written before the extra copies are made. */
  function Step(w: World, item: Item): (World, Result) {
    var id := item.sourceId;
    if item.primary.DiesBefore? then (w, Death)
    else if IsDone(w.rows, id) then (w, Fine)
    else if item.fetchError || item.primary.Raises? then (WithRow(w, id, Row(Failed, None, None)), Failure)
    else
      var w' := Import(w, id, true);
      if item.primary.DiesAfter? then (w', Death)
      else ImportExtras(WithRow(w', id, DoneRow(w.next, item.dedupHash)), id, item.extras)
  }

  datatype Progress = Progress(world: World, failures: nat, died: bool)

  function Advance(p: Progress, item: Item): Progress {
    if p.died then p
    else
      var (w, r) := Step(p.world, item);
      Progress(w, p.failures + if r.Failure? then 1 else 0, r.Death?)
  }

  function RunFeed(w: World, feed: seq<Item>): Progress {
    if feed == [] then Progress(w, 0, false)
    else Advance(RunFeed(w, feed[..|feed| - 1]), feed[|feed| - 1])
  }

  predicate Clean(p: Progress) {
    p.failures == 0 && !p.died
  }

  lemma RunFeedStep(w: World, feed: seq<Item>, item: Item)
    ensures RunFeed(w, feed + [item]) == Advance(RunFeed(w, feed), item)
  {
    hide Advance;
    assert (feed + [item])[..|feed|] == feed;
  }

  /** Every message is fetched and imported, and nobody dies. */
  ghost predicate AllWell(feed: seq<Item>) {
    forall item <- feed :: Imports(item, item.sourceId) && forall c <- item.extras :: !Dies(c)
  }

  /** A pass in which all is well ends without failure, everything it was given being done; and no pass counts
      more failures than it was given messages. */
  lemma {:induction false} WellEndsClean(w: World, feed: seq<Item>)
    ensures AllWell(feed) ==> Clean(RunFeed(w, feed)) && forall item <- feed :: IsDone(RunFeed(w, feed).world.rows, item.sourceId)
    ensures RunFeed(w, feed).failures <= |feed|
  {
    if feed != [] {
      var init, item := feed[..|feed| - 1], feed[|feed| - 1];
      assert feed == init + [item];
      hide Step, RunFeed, Dies, Imports;
      RunFeedStep(w, init, item);
      WellEndsClean(w, init);
      assert item in feed;
      if AllWell(feed) {
        assert AllWell(init);
        var before := RunFeed(w, init).world;
        WellStep(before, item);
        forall k: SourceId | IsDone(before.rows, k) ensures IsDone(Step(before, item).0.rows, k) { StepStays(before, item, k); }
      }
    }
  }

  lemma WellStep(w: World, item: Item)
    requires Imports(item, item.sourceId) && forall c <- item.extras :: !Dies(c)
    ensures Step(w, item).1.Fine? && IsDone(Step(w, item).0.rows, item.sourceId)
  {
    StepStays(w, item, item.sourceId);
    hide Step, Dies;
  }

  // ----- at most once ----------------------------------------------------------------------

  /** The copies in the first folder. */
  function Primaries(w: World, id: SourceId): set<nat> {
    set dest <- w.copies | w.copies[dest] == Copy(id, true)
  }

  ghost predicate FreshIds(w: World) {
    forall dest <- w.copies :: dest < w.next
  }

  /** What the extra copies leave: the rows, the ids given out before, and no further copies in the first folder. */
  lemma {:induction false} ExtrasKeep(w: World, id: SourceId, extras: seq<Call>)
    ensures var (w', r) := ImportExtras(w, id, extras);
            && w'.rows == w.rows && !r.Failure?
            && (FreshIds(w) ==> FreshIds(w') && w.next <= w'.next
                                && (forall dest <- w.copies :: dest in w'.copies && w'.copies[dest] == w.copies[dest])
                                && forall k: SourceId :: Primaries(w', k) == Primaries(w, k))
  {
    if extras != [] {
      ExtrasKeep(w, id, extras[..|extras| - 1]);
    }
  }

  predicate Dies(call: Call) {
    call.DiesBefore? || call.DiesAfter?
  }

  /** How many of the calls land: those that succeed, up to the first at which the process dies. */
  function Landed(extras: seq<Call>): nat {
    if extras == [] then 0
    else (if extras[0].Succeeds? || extras[0].DiesAfter? then 1 else 0) + if Dies(extras[0]) then 0 else Landed(extras[1..])
  }

  lemma {:induction false} LandedSnoc(extras: seq<Call>, last: Call)
    ensures Landed(extras + [last])
              == Landed(extras) + if (exists c <- extras :: Dies(c)) || last.Raises? || last.DiesBefore? then 0 else 1
  {
    if extras == [] {
      assert [last][1..] == [];
    } else {
      assert (extras + [last])[1..] == extras[1..] + [last];
      LandedSnoc(extras[1..], last);
      assert (exists c <- extras :: Dies(c)) <==> Dies(extras[0]) || exists c <- extras[1..] :: Dies(c);
    }
  }

  /** Each extra copy that lands is one more, not in the first folder; a failing one is skipped. */
  lemma {:induction false} ExtrasLand(w: World, id: SourceId, extras: seq<Call>)
    ensures var (w', r) := ImportExtras(w, id, extras);
            && (r.Death? <==> exists c <- extras :: Dies(c)) && !r.Failure?
            && w'.next == w.next + Landed(extras)
            && (forall dest :: w.next <= dest < w'.next ==> dest in w'.copies && w'.copies[dest] == Copy(id, false))
  {
    if extras != [] {
      var init, last := extras[..|extras| - 1], extras[|extras| - 1];
      assert extras == init + [last];
      ExtrasLand(w, id, init);
      LandedSnoc(init, last);
      assert (exists c <- extras :: Dies(c)) <==> Dies(last) || exists c <- init :: Dies(c);
      hide Landed;
    }
  }

  /** The process dies between the primary import and its row. */
  function Torn(w: World, item: Item, id: SourceId): nat {
    if item.sourceId == id && item.primary.DiesAfter? && !item.fetchError && !IsDone(w.rows, id) then 1 else 0
  }

  /** At most `torn` copies in the first folder besides the recorded one. */
  ghost predicate ImportedOnce(w: World, id: SourceId, torn: nat) {
    FreshIds(w) && |Primaries(w, id)| <= torn + if IsDone(w.rows, id) then 1 else 0
  }

  /** A done row names the copy of its own message in the first folder. */
  ghost predicate RowsNameCopies(w: World) {
    FreshIds(w)
    && forall id <- w.rows :: w.rows[id].status.Done? ==>
         w.rows[id].destId.Some? && w.rows[id].destId.value in Primaries(w, id)
  }

  lemma ImportAdds(w: World, id: SourceId, k: SourceId)
    requires FreshIds(w)
    ensures FreshIds(Import(w, id, true))
    ensures Primaries(Import(w, id, true), k) == if k == id then Primaries(w, k) + {w.next} else Primaries(w, k)
    ensures w.next !in Primaries(w, k)
  {
  }

  /** One step: `done` is final, a message that ends well is done, and one that could not be fetched or
      imported ends failed unless it was done. */
  lemma StepStays(w: World, item: Item, id: SourceId)
    ensures var (w', r) := Step(w, item);
            && (IsDone(w.rows, id) ==> IsDone(w'.rows, id) && w'.rows[id] == w.rows[id])
            && (IsDone(w'.rows, id) && !IsDone(w.rows, id) ==> Imports(item, id) && w'.rows[id].sourceHash == Hash(item))
            && (r.Fine? ==> IsDone(w'.rows, item.sourceId))
            && (r.Death? <==> DiesAt(w, item))
            && (Imports(item, item.sourceId) && !IsDone(w.rows, item.sourceId) ==>
                  w'.rows == w.rows[item.sourceId := Row(Done, Some(w.next), Hash(item))])
            && (item.primary == DiesBefore || (item.primary == DiesAfter && !item.fetchError) ==> w'.rows == w.rows)
            && (r.Failure? ==> item.sourceId in w'.rows && w'.rows[item.sourceId] == Row(Failed, None, None))
            && (item.fetchError && !IsDone(w.rows, item.sourceId) ==> !r.Fine?)
            && (item.primary.Raises? && !IsDone(w.rows, item.sourceId) ==> !r.Fine?)
            && (id != item.sourceId ==> (id in w.rows <==> id in w'.rows) && (id in w.rows ==> w'.rows[id] == w.rows[id]))
  {
    var w1 := WithRow(Import(w, item.sourceId, true), item.sourceId, DoneRow(w.next, item.dedupHash));
    ExtrasKeep(w1, item.sourceId, item.extras);
    ExtrasLand(w1, item.sourceId, item.extras);
    hide ImportExtras, FreshIds, Primaries, Landed, Dies;
  }

  /** The process dies before the import; or after it, or at an extra copy, if there is one. */
  ghost predicate DiesAt(w: World, item: Item) {
    item.primary == DiesBefore
    || (!IsDone(w.rows, item.sourceId) && !item.fetchError
        && (item.primary == DiesAfter || (item.primary == Succeeds && exists c <- item.extras :: Dies(c))))
  }

  /** The item is fetched and its import succeeds. */
  predicate Imports(item: Item, id: SourceId) {
    item.sourceId == id && !item.fetchError && item.primary.Succeeds?
  }

  function Hash(item: Item): Option<string> {
    if item.dedupHash == "" then None else Some(item.dedupHash)
  }

  /** One step: an import is followed by `done` unless torn. */
  lemma StepOnce(w: World, item: Item, id: SourceId, torn: nat)
    requires ImportedOnce(w, id, torn)
    ensures var (w', r) := Step(w, item);
            && ImportedOnce(w', id, torn + Torn(w, item, id))
            && (IsDone(w.rows, id) ==> Primaries(w', id) == Primaries(w, id))
  {
    StepStays(w, item, id);
    ImportAdds(w, item.sourceId, id);
    var w1 := WithRow(Import(w, item.sourceId, true), item.sourceId, DoneRow(w.next, item.dedupHash));
    ExtrasKeep(w1, item.sourceId, item.extras);
    assert Primaries(w1, id) == Primaries(Import(w, item.sourceId, true), id);
    hide ImportExtras, Primaries;
  }

  lemma StepNames(w: World, item: Item)
    requires RowsNameCopies(w)
    ensures RowsNameCopies(Step(w, item).0)
  {
    var own := item.sourceId;
    var w1 := WithRow(Import(w, own, true), own, DoneRow(w.next, item.dedupHash));
    ImportAdds(w, own, own);
    assert forall k: SourceId :: Primaries(w1, k) == Primaries(Import(w, own, true), k);
    ExtrasKeep(w1, own, item.extras);
    var w' := Step(w, item).0;
    hide ImportExtras;
    forall id <- w'.rows | w'.rows[id].status.Done?
      ensures w'.rows[id].destId.Some? && w'.rows[id].destId.value in Primaries(w', id)
    {
      StepStays(w, item, id);
      ImportAdds(w, own, id);
    }
  }

  function TornIn(w: World, feed: seq<Item>, id: SourceId): nat {
    if feed == [] then 0
    else
      var init, item := feed[..|feed| - 1], feed[|feed| - 1];
      var p := RunFeed(w, init);
      TornIn(w, init, id) + if p.died then 0 else Torn(p.world, item, id)
  }

  lemma TornInStep(w: World, feed: seq<Item>, item: Item, id: SourceId)
    ensures TornIn(w, feed + [item], id)
              == TornIn(w, feed, id) + if RunFeed(w, feed).died then 0 else Torn(RunFeed(w, feed).world, item, id)
  {
    hide RunFeed, Torn;
    assert (feed + [item])[..|feed|] == feed;
  }

  predicate StaysDone(w: World, w': World, id: SourceId) {
    IsDone(w.rows, id) ==> IsDone(w'.rows, id) && w'.rows[id] == w.rows[id]
  }

  /** An item of the feed that is fetched and imported, before the n-th. */
  ghost predicate ImportedBefore(feed: seq<Item>, n: nat, id: SourceId) {
    exists j :: 0 <= j < n && j < |feed| && Imports(feed[j], id)
  }

  /** Done is final; only what was fetched and imported becomes done; and a pass without failure leaves
      everything it was given done, so that each message it could not fetch was done before. */
  ghost predicate FeedStays(w: World, feed: seq<Item>, id: SourceId) {
    var p := RunFeed(w, feed);
    && StaysDone(w, p.world, id)
    && (IsDone(p.world.rows, id) && !IsDone(w.rows, id) ==> ImportedBefore(feed, |feed|, id))
    && (Clean(p) ==> forall item <- feed :: IsDone(p.world.rows, item.sourceId))
    && (Clean(p) ==> forall n :: 0 <= n < |feed| && (feed[n].fetchError || feed[n].primary.Raises?) ==>
                       IsDone(w.rows, feed[n].sourceId) || ImportedBefore(feed, n, feed[n].sourceId))
  }

  lemma BeforeGrows(feed: seq<Item>, item: Item, n: nat, id: SourceId)
    requires ImportedBefore(feed, n, id)
    ensures ImportedBefore(feed + [item], n, id)
  {
    var j :| 0 <= j < n && j < |feed| && Imports(feed[j], id);
    assert (feed + [item])[j] == feed[j];
  }

  lemma FeedStaysStep(w: World, feed: seq<Item>, item: Item, id: SourceId)
    requires forall k: SourceId :: FeedStays(w, feed, k)
    ensures FeedStays(w, feed + [item], id)
  {
    RunFeedStep(w, feed, item);
    var p := RunFeed(w, feed);
    hide RunFeed, Step, ImportedBefore, Imports;
    assert FeedStays(w, feed, id) && FeedStays(w, feed, item.sourceId);
    forall n, k | ImportedBefore(feed, n, k) ensures ImportedBefore(feed + [item], n, k) { BeforeGrows(feed, item, n, k); }
    if !p.died {
      var w' := Step(p.world, item).0;
      StepStays(p.world, item, id);
      StepStays(p.world, item, item.sourceId);
      forall k: SourceId | IsDone(p.world.rows, k) ensures IsDone(w'.rows, k) { StepStays(p.world, item, k); }
      if Imports(item, id) { LastImports(feed, item, id); }
      StillBefore(feed, |feed| + 1, id);
    }
    StillBefore(feed, |feed| + 1, id);
    BeforeMore(feed, item);
  }

  lemma LastImports(feed: seq<Item>, item: Item, id: SourceId)
    requires Imports(item, id)
    ensures ImportedBefore(feed + [item], |feed| + 1, id)
  {
    assert (feed + [item])[|feed|] == item;
  }

  lemma StillBefore(feed: seq<Item>, n: nat, id: SourceId)
    requires |feed| <= n
    ensures ImportedBefore(feed, n, id) <==> ImportedBefore(feed, |feed|, id)
  {
  }

  lemma BeforeMore(feed: seq<Item>, item: Item)
    ensures forall id: SourceId :: ImportedBefore(feed, |feed|, id) ==> ImportedBefore(feed + [item], |feed| + 1, id)
  {
    forall id: SourceId | ImportedBefore(feed, |feed|, id) ensures ImportedBefore(feed + [item], |feed| + 1, id) {
      var j :| 0 <= j < |feed| && Imports(feed[j], id);
      assert (feed + [item])[j] == feed[j];
    }
  }

  /** Main result. Over any feed, with any failures and crashes: see FeedStays. */
  lemma {:induction false} OnlyImportedIsDone(w: World, feed: seq<Item>)
    ensures forall id: SourceId :: FeedStays(w, feed, id)
  {
    if feed != [] {
      hide FeedStays;
      var init, item := feed[..|feed| - 1], feed[|feed| - 1];
      assert feed == init + [item];
      OnlyImportedIsDone(w, init);
      forall id: SourceId ensures FeedStays(w, feed, id) { FeedStaysStep(w, init, item, id); }
    }
  }

  ghost predicate FeedOnce(w: World, feed: seq<Item>, id: SourceId, torn: nat) {
    var p := RunFeed(w, feed);
    && ImportedOnce(p.world, id, torn + TornIn(w, feed, id))
    && (IsDone(w.rows, id) ==> Primaries(p.world, id) == Primaries(w, id))
    && StaysDone(w, p.world, id)
  }

  lemma FeedOnceStep(w: World, feed: seq<Item>, item: Item, id: SourceId, torn: nat)
    requires FeedOnce(w, feed, id, torn)
    ensures FeedOnce(w, feed + [item], id, torn)
  {
    RunFeedStep(w, feed, item);
    TornInStep(w, feed, item, id);
    hide RunFeed, TornIn, Step, Torn, Primaries, ImportedOnce;
    var p := RunFeed(w, feed);
    if !p.died {
      StepOnce(p.world, item, id, torn + TornIn(w, feed, id));
      StepStays(p.world, item, id);
    }
  }

  /** Main result. Over any feed, repeated ids included, with any failures and crashes: a message is
      imported into its first folder at most once, plus once for every crash between the import
      and its row, however the extra copies end; and a done row is final. */
  lemma {:induction false} AtMostOnce(w: World, feed: seq<Item>, id: SourceId, torn: nat)
    requires ImportedOnce(w, id, torn)
    ensures FeedOnce(w, feed, id, torn)
  {
    if feed != [] {
      hide FeedOnce, ImportedOnce;
      var init, item := feed[..|feed| - 1], feed[|feed| - 1];
      assert feed == init + [item];
      AtMostOnce(w, init, id, torn);
      FeedOnceStep(w, init, item, id, torn);
    }
  }

  /** Main result. Every done row names the copy of its own message in the first folder. */
  lemma {:induction false} RowsKeepNaming(w: World, feed: seq<Item>)
    requires RowsNameCopies(w)
    ensures RowsNameCopies(RunFeed(w, feed).world)
  {
    if feed != [] {
      hide RowsNameCopies, Step;
      var init, item := feed[..|feed| - 1], feed[|feed| - 1];
      assert feed == init + [item];
      RowsKeepNaming(w, init);
      RunFeedStep(w, init, item);
      StepNames(RunFeed(w, init).world, item);
    }
  }

  // ----- sequences of passes ---------------------------------------------------------------

  function Runs(w: World, feeds: seq<seq<Item>>): World {
    if feeds == [] then w else RunFeed(Runs(w, feeds[..|feeds| - 1]), feeds[|feeds| - 1]).world
  }

  function TornInRuns(w: World, feeds: seq<seq<Item>>, id: SourceId): nat {
    if feeds == [] then 0
    else
      var init := feeds[..|feeds| - 1];
      TornInRuns(w, init, id) + TornIn(Runs(w, init), feeds[|feeds| - 1], id)
  }

  /** At most once over any sequence of full and delta passes from an empty store, and every done row names
      its own copy. */
  lemma {:induction false} RunsAtMostOnce(w: World, feeds: seq<seq<Item>>, id: SourceId)
    requires w.rows == map[] && w.copies == map[]
    ensures ImportedOnce(Runs(w, feeds), id, TornInRuns(w, feeds, id)) && RowsNameCopies(Runs(w, feeds))
  {
    if feeds != [] {
      hide RunFeed, TornIn, RowsNameCopies, Primaries;
      var init, feed := feeds[..|feeds| - 1], feeds[|feeds| - 1];
      RunsAtMostOnce(w, init, id);
      AtMostOnce(Runs(w, init), feed, id, TornInRuns(w, init, id));
      RowsKeepNaming(Runs(w, init), feed);
    }
  }
}
