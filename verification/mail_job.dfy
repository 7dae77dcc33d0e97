/** run_mail itself (workloads/mail_job.py), proved to compute MailPass, and run on the IMAP source:
    over whole sequences of runs no message falls behind the stored cursor. */
module MailJob {
  import opened Wrappers
  import opened State
  import opened MailPass
  import Imap
  import ImapSource

  class Job {
    const store: Store<nat, Imap.Cursor>
    /** MIME imports cannot carry flags, which are patched afterwards. */
    const mime: bool
    /** The destination: the successful imports, and the messages whose flags were patched. */
    var copies: map<nat, Copy>
    var next: nat
    var patched: set<nat>

    constructor (store: Store<nat, Imap.Cursor>, mime: bool)
      ensures this.store == store && this.mime == mime && copies == map[] && patched == {}
    {
      this.store, this.mime := store, mime;
      copies, next, patched := map[], 0, {};
    }

    ghost function Abs(): World
      reads this, store
    {
      World(store.items, copies, next)
    }

    /** import_message into the first folder; None if it raises. A flags patch that raises fails
        nothing: the message is imported. */
    method ImportInto(id: SourceId, raises: bool, patchRaises: bool) returns (dest: Option<nat>)
      modifies this
      ensures dest == if raises then None else Some(old(next))
      ensures Abs() == if raises then old(Abs()) else Import(old(Abs()), id, true)
      ensures patched == old(patched) + if dest.Some? && mime && !patchRaises then {dest.value} else {}
    {
      if raises {
        return None;
      }
      dest := Some(next);
      copies, next := copies[next := Copy(id, true)], next + 1;
      if mime && !patchRaises {
        patched := patched + {dest.value};
      }
    }

    /** The best-effort copies into the other folders. */
    method CopyInto(id: SourceId, calls: seq<Call>) returns (r: Result)
      modifies this
      ensures (Abs(), r) == ImportExtras(old(Abs()), id, calls)
    {
      ghost var start := Abs();
      assert calls[..0] == [];
      for i := 0 to |calls|
        invariant (Abs(), Fine) == ImportExtras(start, id, calls[..i])
      {
        ExtrasStep(start, id, calls, i);
        if calls[i].DiesBefore? {
          DeadExtras(start, id, calls, i + 1, |calls|);
          assert calls[..|calls|] == calls;
          return Death;
        }
        if !calls[i].Raises? {
          copies, next := copies[next := Copy(id, false)], next + 1;
          if calls[i].DiesAfter? {
            DeadExtras(start, id, calls, i + 1, |calls|);
            assert calls[..|calls|] == calls;
            return Death;
          }
        }
      }
      assert calls[..|calls|] == calls;
      return Fine;
    }

    /** One turn of the loop. */
    method Process(item: Item) returns (r: Result)
      modifies this, store`items
      ensures (Abs(), r) == Step(old(Abs()), item)
    {
      var id := item.sourceId;
      if item.primary.DiesBefore? {
        return Death;
      }
      if store.IsDone(id) {
        return Fine;
      }
      if item.fetchError {
        store.UpsertItem(id, Failed, None, None);
        return Failure;
      }
      var patchRaises: bool := *;
      var dest := ImportInto(id, item.primary.Raises?, patchRaises);
      if dest.None? {
        store.UpsertItem(id, Failed, None, None);
        return Failure;
      }
      if item.primary.DiesAfter? {
        return Death;
      }
      store.UpsertItem(id, Done, dest, if item.dedupHash == "" then None else Some(item.dedupHash));
      r := CopyInto(id, item.extras);
    }

    /** The loop of run_mail; `ended` is false if the process died. */
    method ProcessFeed(feed: seq<Item>) returns (failures: nat, ended: bool)
      modifies this, store`items
      ensures var p := RunFeed(old(Abs()), feed);
              Abs() == p.world && ended == !p.died && (ended ==> failures == p.failures)
    {
      hide Step, RunFeed;
      failures, ended := 0, true;
      ghost var start := Abs();
      EmptyFeed(start, feed[..0]);
      for i := 0 to |feed|
        invariant Progress(Abs(), failures, false) == RunFeed(start, feed[..i])
      {
        OneMore(start, feed, i);
        var r := Process(feed[i]);
        if r.Death? {
          DeadStays(start, feed, i + 1, |feed|);
          assert feed[..|feed|] == feed;
          return failures, false;
        }
        failures := failures + if r.Failure? then 1 else 0;
      }
      assert feed[..|feed|] == feed;
    }
  }

  lemma ExtrasStep(w: World, id: SourceId, calls: seq<Call>, i: nat)
    requires i < |calls|
    ensures var (w', r) := ImportExtras(w, id, calls[..i]);
            ImportExtras(w, id, calls[..i + 1]) ==
              if r.Death? then (w', r)
              else match calls[i]
                case DiesBefore => (w', Death)
                case DiesAfter => (Import(w', id, false), Death)
                case Raises => (w', Fine)
                case Succeeds => (Import(w', id, false), Fine)
  {
    var init, last := calls[..i], calls[i];
    assert calls[..i + 1] == init + [last];
    assert (init + [last])[..i] == init;
  }

  lemma DeadExtras(w: World, id: SourceId, calls: seq<Call>, i: nat, j: nat)
    requires i <= j <= |calls| && ImportExtras(w, id, calls[..i]).1.Death?
    ensures ImportExtras(w, id, calls[..j]) == ImportExtras(w, id, calls[..i])
  {
    hide ImportExtras;
    if i < j {
      DeadExtras(w, id, calls, i, j - 1);
      ExtrasStep(w, id, calls, j - 1);
    }
  }

  lemma EmptyFeed(w: World, feed: seq<Item>)
    requires feed == []
    ensures RunFeed(w, feed) == Progress(w, 0, false)
  {
  }

  lemma OneMore(w: World, feed: seq<Item>, i: nat)
    requires i < |feed|
    ensures RunFeed(w, feed[..i + 1]) == Advance(RunFeed(w, feed[..i]), feed[i])
  {
    hide Advance, RunFeed;
    var init, item := feed[..i], feed[i];
    assert feed[..i + 1] == init + [item];
    RunFeedStep(w, init, item);
  }

  lemma DeadStays(w: World, feed: seq<Item>, i: nat, j: nat)
    requires i <= j <= |feed| && RunFeed(w, feed[..i]).died
    ensures RunFeed(w, feed[..j]) == RunFeed(w, feed[..i])
  {
    hide RunFeed, Step;
    if i < j {
      DeadStays(w, feed, i, j - 1);
      OneMore(w, feed, j - 1);
    }
  }

  // ----- run_mail on an IMAP source --------------------------------------------------------

  /** Every live message of the folder below its cursor entry is done. */
  ghost predicate NothingLost(boxes: Imap.Mailboxes, rows: Rows, name: string, entry: Imap.FolderCursor) {
    && ImapSource.EntryPast(boxes, name, entry)
    && (name in boxes && boxes[name].validity == entry.uidValidity ==>
          forall uid <- boxes[name].live :: uid < entry.uidNext ==>
            IsDone(rows, Imap.MessageId(name, entry.uidValidity, uid)))
  }

  /** No folder of the cursor has lost a message, except perhaps `gaps`. */
  ghost predicate NoLoss(boxes: Imap.Mailboxes, rows: Rows, cursor: Option<Imap.Cursor>, gaps: set<string>) {
    cursor.Some? ==> forall name <- cursor.value :: name in gaps || NothingLost(boxes, rows, name, cursor.value[name])
  }

  /** Deliveries, expunges and renumberings between runs lose nothing, and neither do new rows. */
  lemma NoLossLater(boxes: Imap.Mailboxes, boxes': Imap.Mailboxes, rows: Rows, rows': Rows,
                    cursor: Option<Imap.Cursor>, gaps: set<string>)
    requires Imap.ValidServer(boxes') && Imap.Later(boxes, boxes') && NoLoss(boxes, rows, cursor, gaps)
    requires forall id <- rows :: IsDone(rows, id) ==> IsDone(rows', id)
    ensures NoLoss(boxes', rows', cursor, gaps)
  {
    hide Imap.MessageId;
    if cursor.Some? {
      forall name <- cursor.value | name !in gaps ensures NothingLost(boxes', rows', name, cursor.value[name]) {
        assert NothingLost(boxes, rows, name, cursor.value[name]);
        if name in boxes { assert Imap.MailboxLater(boxes[name], boxes'[name]); }
        if name in boxes' { assert Imap.ValidMailbox(boxes'[name]); }
      }
    }
  }

  /** What the enumeration covered, and what the previous cursor covered, is done. */
  lemma CoveredIsDone(boxes: Imap.Mailboxes, rows: Rows, name: string, since: Imap.Cursor, entry: Imap.FolderCursor,
                      ids: set<SourceId>)
    requires ImapSource.Kept(boxes, name, ImapSource.Prev(since, name), entry, ids)
    requires forall id <- ids :: IsDone(rows, id)
    requires name in since ==> NothingLost(boxes, rows, name, since[name])
    ensures NothingLost(boxes, rows, name, entry)
  {
    hide Imap.MessageId;
  }

  /** Rows only ever become done. */
  lemma FeedKeepsDone(w: World, feed: seq<Item>)
    ensures forall id <- w.rows :: IsDone(w.rows, id) ==> IsDone(RunFeed(w, feed).world.rows, id)
    ensures Clean(RunFeed(w, feed)) ==> forall item <- feed :: IsDone(RunFeed(w, feed).world.rows, item.sourceId)
  {
    hide RunFeed, ImportedBefore;
    OnlyImportedIsDone(w, feed);
    assert FeedStays(w, feed, "");
    forall id <- w.rows ensures IsDone(w.rows, id) ==> IsDone(RunFeed(w, feed).world.rows, id) {
      assert FeedStays(w, feed, id);
    }
  }

  /** Only what is fetched and imported becomes done, and a pass without failure meets no other message that
      was not done. */
  lemma OnlyDone(w: World, feed: seq<Item>)
    ensures forall id: SourceId :: IsDone(RunFeed(w, feed).world.rows, id) && !IsDone(w.rows, id) ==> ImportedBefore(feed, |feed|, id)
    ensures Clean(RunFeed(w, feed)) ==>
              forall n :: 0 <= n < |feed| && feed[n].fetchError ==>
                IsDone(w.rows, feed[n].sourceId) || ImportedBefore(feed, n, feed[n].sourceId)
  {
    hide RunFeed, ImportedBefore;
    OnlyImportedIsDone(w, feed);
    assert FeedStays(w, feed, "");
    forall id: SourceId | IsDone(RunFeed(w, feed).world.rows, id) && !IsDone(w.rows, id)
      ensures ImportedBefore(feed, |feed|, id)
    {
      assert FeedStays(w, feed, id);
    }
  }

  datatype Mode = Full | Delta

  class ImapMigration {
    const server: ImapSource.Server
    const source: ImapSource.Source
    const job: Job

    constructor (server: ImapSource.Server, job: Job)
      ensures this.server == server && this.job == job && source.server == server
    {
      this.server, this.job := server, job;
      source := new ImapSource.Source(server);
    }

    ghost predicate Valid()
      reads this, server
    {
      source.server == server && Imap.ValidServer(server.boxes)
    }

    /** The state of the cursor against the server. */
    ghost predicate Lossless(gaps: set<string>)
      reads this, server, job, job.store
    {
      NoLoss(server.boxes, job.store.items, job.store.cursor, gaps)
    }

    /** The messages as the loop meets them, each with some outcome of its imports. */
    method Outcomes(msgs: seq<ImapSource.Message>) returns (feed: seq<Item>)
      ensures |feed| == |msgs|
      ensures forall i :: 0 <= i < |msgs| ==>
                feed[i].sourceId == msgs[i].sourceId && feed[i].fetchError == msgs[i].fetchError
    {
      feed := [];
      for k := 0 to |msgs|
        invariant |feed| == k
        invariant forall i :: 0 <= i < k ==>
                    feed[i].sourceId == msgs[i].sourceId && feed[i].fetchError == msgs[i].fetchError
      {
        var hash: string, primary: Call, extras: seq<Call> := *, *, *;
        feed := feed + [Item(msgs[k].sourceId, msgs[k].fetchError, hash, primary, extras)];
      }
    }

    /** Main result. One run of run_mail, full or delta, on a server that changes between any two
        commands, with any fetch, import and command failures, aborted or dying anywhere.
        `msgs` are the messages enumerated and `seen` what the loop was given of them. The cursor
        is stored exactly by a run that is not refused, not aborted, and leaves everything it
        enumerated done. It then passes no message that is not done, except in folders whose
        SEARCH was refused: in this run, or in an earlier one that a full run has not made good. It
        reaches as far as each folder was when the run began, unless its STATUS was refused. A message
        carries a fetch error exactly if its FETCH was answered without a body; only one that was fetched
        and imported becomes done, and a run that meets another that was not done stores no cursor. */
    method Run(mode: Mode, excluded: set<string>, ghost gaps: set<string>)
      returns (ghost stored: bool, ghost msgs: seq<ImapSource.Message>, ghost seen: seq<Item>)
      requires Valid() && Lossless(gaps)
      modifies server, job, job.store
      ensures Valid() && old(server.refused) <= server.refused && old(server.aborts) <= server.aborts
      ensures old(server.fetched) <= server.fetched
      ensures ImapSource.Reports(msgs, server.fetched[|old(server.fetched)|..])
      ensures !stored ==> Lossless(gaps)
      ensures stored ==>
                Lossless(ImapSource.Unsearched(NewRefusals(old(server.refused), server.refused)) + if mode == Delta then gaps else {})
      ensures job.Abs() == RunFeed(old(job.Abs()), seen).world
      ensures |seen| <= |msgs| && (server.aborts == old(server.aborts) ==> |seen| == |msgs|)
      ensures forall n :: 0 <= n < |seen| ==> seen[n].sourceId == msgs[n].sourceId && seen[n].fetchError == msgs[n].fetchError
      ensures mode.Delta? && old(job.store.cursor).None? ==> seen == [] && server.refused == old(server.refused)
      ensures stored <==> && !(mode.Delta? && old(job.store.cursor).None?)
                          && server.aborts == old(server.aborts) && Clean(RunFeed(old(job.Abs()), seen))
      ensures forall id: SourceId :: IsDone(job.store.items, id) && !IsDone(old(job.store.items), id) ==>
                ImportedBefore(seen, |seen|, id)
      ensures stored ==>
                forall n :: 0 <= n < |seen| && seen[n].fetchError ==>
                  IsDone(old(job.store.items), seen[n].sourceId) || ImportedBefore(seen, n, seen[n].sourceId)
      ensures !stored ==> job.store.cursor == old(job.store.cursor)
      ensures stored ==>
                && job.store.cursor.Some?
                && job.store.cursor.value.Keys
                     == (set name | name in old(server.boxes) && old(server.boxes)[name].listed && name !in excluded)
                && ImapSource.AllReach(old(server.boxes), job.store.cursor.value, NewRefusals(old(server.refused), server.refused))
                && forall id <- ImapSource.IdsOf(msgs) ::
                     ImapSource.NewMessage(if mode == Delta then old(job.store.cursor).value else map[], job.store.cursor.value, id)
    {
      stored, msgs, seen := false, [], [];
      if mode.Delta? && job.store.cursor.None? {
        return;
      }
      var since: Imap.Cursor := if mode.Delta? then job.store.cursor.value else map[];
      ghost var boxes, rows, refused := server.boxes, job.store.items, server.refused;
      var enumerated, cursor, aborted := source.IterMessages(excluded, since);
      msgs := enumerated;
      hide RunFeed, Imap.MessageId, ImapSource.Kept, Imap.Later, Imap.ValidServer, NothingLost, Imap.Before,
        ImapSource.Unsearched, ImapSource.NoStatus, ImapSource.Reaches, ImapSource.NewMessage;
      NoLossLater(boxes, server.boxes, rows, rows, job.store.cursor, gaps);
      var feed := Outcomes(enumerated);
      if aborted {
        // The messages before the abort have been handed on; the generator is dead.
        var handed: int := *;
        feed := if 0 <= handed <= |feed| then feed[..handed] else feed;
      }
      seen := feed;
      FeedKeepsDone(job.Abs(), feed);
      OnlyDone(job.Abs(), feed);
      ghost var boxes' := server.boxes;
      var failures, ended := job.ProcessFeed(feed);
      server.Interleave();
      NoLossLater(boxes', server.boxes, rows, job.store.items, job.store.cursor, gaps);
      if aborted || !ended || failures > 0 {
        return;
      }
      stored := true;
      ghost var gaps' := GapsAfter(mode, gaps, true, NewRefusals(refused, server.refused));
      StoredCursor(boxes', server.boxes, job.store.items, since, cursor, enumerated, feed,
                   ImapSource.Unsearched(NewRefusals(refused, server.refused)), gaps');
      job.store.SaveCursor(cursor);
    }

    /** Any sequence of runs, whatever happens on the server between them: the stored cursor passes no
        message that is not done, except in folders of which a SEARCH was refused. In particular
        nothing at all is lost if none was. */
    method Runs(runs: seq<(Mode, set<string>)>)
      requires Valid() && Lossless({})
      modifies server, job, job.store
      ensures Valid() && old(server.refused) <= server.refused
      ensures Lossless(ImapSource.Unsearched(NewRefusals(old(server.refused), server.refused)))
      ensures ImapSource.Unsearched(NewRefusals(old(server.refused), server.refused)) == {} ==> Lossless({})
    {
      hide Imap.ValidServer, Imap.Later, NothingLost, RunFeed, NoLoss;
      ghost var start := server.refused;
      MoreGaps(server.boxes, job.store.items, job.store.cursor, {}, ImapSource.Unsearched(NewRefusals(start, start)));
      for i := 0 to |runs|
        invariant Valid() && start <= server.refused
        invariant Lossless(ImapSource.Unsearched(NewRefusals(start, server.refused)))
      {
        ghost var boxes, rows := server.boxes, job.store.items;
        ghost var gaps := ImapSource.Unsearched(NewRefusals(start, server.refused));
        server.Interleave();
        NoLossLater(boxes, server.boxes, rows, rows, job.store.cursor, gaps);
        ghost var refused := server.refused;
        ghost var stored, msgs, seen := Run(runs[i].0, runs[i].1, gaps);
        GapsWithin(runs[i].0, start, refused, server.refused, stored);
        MoreGaps(server.boxes, job.store.items, job.store.cursor,
                 GapsAfter(runs[i].0, gaps, stored, NewRefusals(refused, server.refused)),
                 ImapSource.Unsearched(NewRefusals(start, server.refused)));
      }
    }
  }

  /** What was refused in between. */
  function NewRefusals(before: seq<ImapSource.Refusal>, after: seq<ImapSource.Refusal>): seq<ImapSource.Refusal>
    requires before <= after
  {
    after[|before|..]
  }

  /** The folders that may have lost a message: a stored cursor adds those whose SEARCH was refused, and a
      full run starts afresh. */
  function GapsAfter(mode: Mode, gaps: set<string>, stored: bool, refusals: seq<ImapSource.Refusal>): set<string> {
    if !stored then gaps else ImapSource.Unsearched(refusals) + if mode.Delta? then gaps else {}
  }

  /** What the cursor of a run reaches and passes losslessly is done: every message that was there when
      the run began, and still is. */
  lemma CaughtUp(start: Imap.Mailboxes, boxes: Imap.Mailboxes, rows: Rows, name: string, entry: Imap.FolderCursor, uid: nat)
    requires Imap.ValidServer(start) && NothingLost(boxes, rows, name, entry) && ImapSource.Reaches(start, name, entry)
    requires name in start && uid in start[name].live
    requires name in boxes && boxes[name].validity == start[name].validity && uid in boxes[name].live
    ensures IsDone(rows, Imap.MessageId(name, start[name].validity, uid))
  {
    hide Imap.MessageId;
    assert Imap.ValidMailbox(start[name]);
  }

  lemma MoreGaps(boxes: Imap.Mailboxes, rows: Rows, cursor: Option<Imap.Cursor>, gaps: set<string>, gaps': set<string>)
    requires NoLoss(boxes, rows, cursor, gaps) && gaps <= gaps'
    ensures NoLoss(boxes, rows, cursor, gaps')
  {
    hide NothingLost;
  }

  lemma GapsWithin(mode: Mode, a: seq<ImapSource.Refusal>, b: seq<ImapSource.Refusal>, c: seq<ImapSource.Refusal>, stored: bool)
    requires a <= b <= c
    ensures GapsAfter(mode, ImapSource.Unsearched(NewRefusals(a, b)), stored, NewRefusals(b, c))
            <= ImapSource.Unsearched(NewRefusals(a, c))
  {
    assert NewRefusals(a, c) == NewRefusals(a, b) + NewRefusals(b, c);
    ImapSource.UnsearchedAdds(NewRefusals(a, b), NewRefusals(b, c));
  }

  /** After a run without failures the cursor of its enumeration may be stored. */
  lemma StoredCursor(boxes: Imap.Mailboxes, boxes': Imap.Mailboxes, rows: Rows, since: Imap.Cursor, cursor: Imap.Cursor,
                     msgs: seq<ImapSource.Message>, feed: seq<Item>, skipped: set<string>, gaps: set<string>)
    requires Imap.ValidServer(boxes') && Imap.Later(boxes, boxes') && skipped <= gaps
    requires forall name <- cursor ::
               name in skipped || ImapSource.Kept(boxes, name, ImapSource.Prev(since, name), cursor[name], ImapSource.IdsOf(msgs))
    requires |feed| == |msgs| && forall i :: 0 <= i < |msgs| ==> feed[i].sourceId == msgs[i].sourceId
    requires forall item <- feed :: IsDone(rows, item.sourceId)
    requires NoLoss(boxes', rows, Some(since), gaps)
    ensures NoLoss(boxes', rows, Some(cursor), gaps)
  {
    hide NothingLost, ImapSource.Kept, Imap.Later, Imap.ValidServer;
    var ids := ImapSource.IdsOf(msgs);
    forall id <- ids ensures IsDone(rows, id) {
      var i :| 0 <= i < |msgs| && msgs[i].sourceId == id;
      assert feed[i] in feed;
    }
    forall name <- cursor | name !in gaps ensures NothingLost(boxes', rows, name, cursor[name]) {
      ImapSource.KeptLater(boxes, boxes', name, ImapSource.Prev(since, name), cursor[name], ids, ids);
      CoveredIsDone(boxes', rows, name, since, cursor[name], ids);
    }
  }
}
