/** ImapSource.iter_messages (connectors/imap.py) against a live server: what the enumeration
    yields and what its cursor stands for, while mail arrives, goes and is renumbered. */
module ImapSource {
  import opened Wrappers
  import opened State
  import opened Imap

  datatype FetchReply = Body | NoBody | Abort

  /** A command that was answered with an error, or not answered in full. */
  datatype Refusal = StatusRefused(name: string) | SearchRefused(name: string)

  /** A FETCH that was answered, with the body of the message or without. */
  datatype Fetched = Fetched(name: string, uid: nat, body: bool)

  /** The folders among the refusals whose SEARCH failed. */
  function Unsearched(refusals: seq<Refusal>): set<string> {
    set r <- refusals | r.SearchRefused? :: r.name
  }

  function NoStatus(refusals: seq<Refusal>): set<string> {
    set r <- refusals | r.StatusRefused? :: r.name
  }

  /** The IMAP server. Its mailboxes may change between any two commands, and any command may be
      answered with an error. For the proofs it keeps the answered FETCH commands, the refused STATUS
      and SEARCH commands, and the number of the errors that end a run: a failed LIST, a folder that
      cannot be selected (the search then raises), a connection that breaks. */
  class Server {
    var boxes: Mailboxes
    ghost var refused: seq<Refusal>
    ghost var fetched: seq<Fetched>
    ghost var aborts: nat

    constructor (boxes: Mailboxes)
      ensures this.boxes == boxes && refused == [] && fetched == [] && aborts == 0
    {
      this.boxes, refused, fetched, aborts := boxes, [], [], 0;
    }

    method Interleave()
      requires ValidServer(boxes)
      modifies this`boxes
      ensures ValidServer(boxes) && Later(old(boxes), boxes)
    {
      var next: Mailboxes := *;
      if ValidServer(next) && Later(boxes, next) {
        boxes := next;
      }
    }

    /** LIST, without the excluded folders: every mailbox once. */
    method List(excluded: set<string>) returns (names: Option<seq<string>>)
      modifies this`aborts
      ensures aborts == old(aborts) + if names.None? then 1 else 0
      ensures names.Some? ==> forall i, j :: 0 <= i < j < |names.value| ==> names.value[i] != names.value[j]
      ensures names.Some? ==> forall name :: name in names.value <==> name in boxes && boxes[name].listed && name !in excluded
    {
      var answers: bool := *;
      if !answers {
        aborts := aborts + 1;
        return None;
      }
      var all := set name <- boxes | boxes[name].listed && name !in excluded;
      var rest, found := all, [];
      while rest != {}
        invariant rest <= all
        invariant forall i, j :: 0 <= i < j < |found| ==> found[i] != found[j]
        invariant forall name :: name in found <==> name in all - rest
      {
        var name :| name in rest;
        assert forall i :: 0 <= i < |found| ==> found[i] in found;
        rest, found := rest - {name}, found + [name];
      }
      return Some(found);
    }

    method Status(name: string) returns (validity: Option<nat>, uidNext: Option<nat>)
      modifies this`refused
      ensures validity.Some? ==> name in boxes && validity.value == boxes[name].validity
      ensures uidNext.Some? ==> name in boxes && uidNext.value == boxes[name].uidNext
      ensures refused == old(refused) + if validity.Some? && uidNext.Some? then [] else [StatusRefused(name)]
    {
      validity, uidNext := None, None;
      if name in boxes && boxes[name].listed {
        var answers: bool, names: bool := *, *;
        if answers { validity := Some(boxes[name].validity); }
        if names { uidNext := Some(boxes[name].uidNext); }
      }
      refused := refused + if validity.Some? && uidNext.Some? then [] else [StatusRefused(name)];
    }

    /** SELECT. */
    method Select(name: string) returns (selected: bool)
      modifies this`aborts
      ensures selected ==> name in boxes && boxes[name].listed
      ensures aborts == old(aborts) + if selected then 0 else 1
    {
      selected := *;
      selected := selected && name in boxes && boxes[name].listed;
      aborts := aborts + if selected then 0 else 1;
    }

    method Search(name: string, start: nat) returns (found: Option<seq<nat>>)
      modifies this`refused
      ensures found.Some? ==>
                name in boxes && forall uid: nat :: uid in found.value <==> uid in InRange(boxes[name].live, start)
      ensures refused == old(refused) + if found.Some? then [] else [SearchRefused(name)]
    {
      var answers: bool := *;
      if name !in boxes || !answers {
        refused := refused + [SearchRefused(name)];
        return None;
      }
      var uids := InRange(boxes[name].live, start);
      var rest, listed := uids, [];
      while rest != {}
        invariant rest <= uids
        invariant forall uid: nat :: uid in listed <==> uid in uids - rest
      {
        var uid :| uid in rest;
        rest, listed := rest - {uid}, listed + [uid];
      }
      return Some(listed);
    }

    method Fetch(name: string, uid: nat) returns (reply: FetchReply)
      modifies this`aborts, this`fetched
      ensures aborts == old(aborts) + if reply.Abort? then 1 else 0
      ensures fetched == old(fetched) + if reply.Abort? then [] else [Fetched(name, uid, reply.Body?)]
    {
      reply := *;
      fetched := fetched + if reply.Abort? then [] else [Fetched(name, uid, reply.Body?)];
      aborts := aborts + if reply.Abort? then 1 else 0;
    }
  }

  datatype Message = Message(sourceId: SourceId, fetchError: bool)

  /** The message of an answered FETCH: it carries an error exactly if the answer had no body. */
  ghost predicate FromReply(m: Message, r: Fetched) {
    (m.fetchError <==> !r.body) && exists v: nat :: m.sourceId == MessageId(r.name, v, r.uid)
  }

  /** The messages of the answered FETCH commands, one for each and in their order. */
  ghost predicate Reports(msgs: seq<Message>, replies: seq<Fetched>) {
    |msgs| == |replies| && forall i :: 0 <= i < |msgs| ==> FromReply(msgs[i], replies[i])
  }

  lemma ReportsMore(msgs: seq<Message>, replies: seq<Fetched>, msgs': seq<Message>, replies': seq<Fetched>)
    requires Reports(msgs, replies) && Reports(msgs', replies')
    ensures Reports(msgs + msgs', replies + replies')
  {
    hide FromReply;
  }

  lemma ReportsOn(msgs: seq<Message>, all: seq<Message>, start: seq<Fetched>, mid: seq<Fetched>, end: seq<Fetched>)
    requires msgs <= all && start <= mid <= end
    requires Reports(msgs, mid[|start|..]) && Reports(all[|msgs|..], end[|mid|..])
    ensures start <= end && Reports(all, end[|start|..])
  {
    ReportsMore(msgs, mid[|start|..], all[|msgs|..], end[|mid|..]);
    hide Reports;
    assert all == msgs + all[|msgs|..] && end[|start|..] == mid[|start|..] + end[|mid|..];
  }

  function IdsOf(msgs: seq<Message>): set<SourceId> {
    set m <- msgs :: m.sourceId
  }

  function Prev(since: Cursor, name: string): Option<FolderCursor> {
    if name in since then Some(since[name]) else None
  }

  /** The entry is not ahead of the server. */
  predicate EntryPast(boxes: Mailboxes, name: string, entry: FolderCursor) {
    entry.uidValidity == 0
    || (name in boxes && entry.uidValidity <= boxes[name].validity
        && (entry.uidValidity == boxes[name].validity ==> entry.uidNext <= boxes[name].uidNext))
  }

  /** Every message of the folder below the entry is among `ids` or was enumerated before. */
  ghost predicate Enumerated(boxes: Mailboxes, name: string, prev: Option<FolderCursor>, entry: FolderCursor, ids: set<SourceId>) {
    name in boxes && boxes[name].validity == entry.uidValidity ==>
      forall uid <- boxes[name].live :: uid < entry.uidNext ==>
        MessageId(name, entry.uidValidity, uid) in ids || Before(prev, entry, uid)
  }

  ghost predicate Kept(boxes: Mailboxes, name: string, prev: Option<FolderCursor>, entry: FolderCursor, ids: set<SourceId>) {
    EntryPast(boxes, name, entry) && Enumerated(boxes, name, prev, entry, ids)
  }

  lemma KeptLater(boxes: Mailboxes, boxes': Mailboxes, name: string, prev: Option<FolderCursor>, entry: FolderCursor,
                  ids: set<SourceId>, ids': set<SourceId>)
    requires ValidServer(boxes') && Later(boxes, boxes') && ids <= ids'
    requires Kept(boxes, name, prev, entry, ids)
    ensures Kept(boxes', name, prev, entry, ids')
  {
    hide MessageId;
    if name in boxes { assert MailboxLater(boxes[name], boxes'[name]); }
    if name in boxes' { assert ValidMailbox(boxes'[name]); }
  }

  lemma CoversEnumerated(boxes: Mailboxes, name: string, prev: Option<FolderCursor>, entry: FolderCursor,
                         yielded: set<nat>, ids: set<SourceId>)
    requires name in boxes ==> Covers(boxes[name], prev, entry, yielded)
    requires forall uid <- yielded :: MessageId(name, entry.uidValidity, uid) in ids
    ensures Enumerated(boxes, name, prev, entry, ids)
  {
    hide MessageId;
  }

  class Source {
    const server: Server

    constructor (server: Server)
      ensures this.server == server
    {
      this.server := server;
    }

    /** The fetches of one folder: each UID becomes a message. Only a broken connection ends the run. */
    method FetchAll(name: string, validity: nat, uids: seq<nat>, msgs: seq<Message>)
      returns (all: seq<Message>, aborted: bool)
      requires ValidServer(server.boxes)
      modifies server`boxes, server`aborts, server`fetched
      ensures ValidServer(server.boxes) && Later(old(server.boxes), server.boxes)
      ensures server.aborts == old(server.aborts) + if aborted then 1 else 0
      ensures old(server.fetched) <= server.fetched
      ensures |msgs| <= |all| && Reports(all[|msgs|..], server.fetched[|old(server.fetched)|..])
      ensures msgs <= all && |all| <= |msgs| + |uids| && (!aborted ==> |all| == |msgs| + |uids|)
      ensures forall i :: |msgs| <= i < |all| ==> all[i].sourceId == MessageId(name, validity, uids[i - |msgs|])
    {
      hide MessageId, Later, ValidServer;
      LaterRefl(server.boxes);
      all, aborted := msgs, false;
      ghost var replies: seq<Fetched> := [];
      for i := 0 to |uids|
        invariant ValidServer(server.boxes) && Later(old(server.boxes), server.boxes)
        invariant server.aborts == old(server.aborts) && msgs <= all && |all| == |msgs| + i
        invariant server.fetched == old(server.fetched) + replies && Reports(all[|msgs|..], replies)
        invariant forall k :: |msgs| <= k < |all| ==> all[k].sourceId == MessageId(name, validity, uids[k - |msgs|])
      {
        ghost var boxes := server.boxes;
        server.Interleave();
        LaterTrans(old(server.boxes), boxes, server.boxes);
        var reply := server.Fetch(name, uids[i]);
        if reply.Abort? {
          assert server.fetched[|old(server.fetched)|..] == replies;
          return all, true;
        }
        var message := Message(MessageId(name, validity, uids[i]), reply.NoBody?);
        ghost var fetched := Fetched(name, uids[i], reply.Body?);
        OneReply(message, fetched, validity);
        ReportsMore(all[|msgs|..], replies, [message], [fetched]);
        assert (all + [message])[|msgs|..] == all[|msgs|..] + [message];
        all, replies := all + [message], replies + [fetched];
      }
      assert server.fetched[|old(server.fetched)|..] == replies;
    }

    /** One turn of the folder loop: the entry it records, and the UIDs it yields. A folder whose SEARCH
        fails is passed over although its new entry is recorded. */
    method ReadFolder(name: string, prev: Option<FolderCursor>, msgs: seq<Message>)
      returns (entry: FolderCursor, all: seq<Message>, aborted: bool, ghost uids: seq<nat>)
      requires ValidServer(server.boxes)
      modifies server
      ensures ValidServer(server.boxes) && Later(old(server.boxes), server.boxes)
      ensures server.aborts == old(server.aborts) + if aborted then 1 else 0
      ensures Refuses(name, old(server.refused), server.refused)
      ensures old(server.fetched) <= server.fetched
      ensures msgs <= all && Reports(all[|msgs|..], server.fetched[|old(server.fetched)|..])
      ensures !aborted && name !in Unsearched(server.refused[|old(server.refused)|..]) ==>
                Kept(server.boxes, name, prev, entry, IdsOf(all))
      ensures name !in NoStatus(server.refused[|old(server.refused)|..]) ==> Reaches(old(server.boxes), name, entry)
      ensures !aborted ==> IdsOf(all) == IdsOf(msgs) + set uid <- uids :: MessageId(name, entry.uidValidity, uid)
      ensures forall uid <- uids :: !Before(prev, entry, uid)
    {
      hide MessageId, InRange, Later, MailboxLater, ValidServer, IdsOf, Kept, From, Unsearched, NoStatus, Refuses;
      ghost var before := server.refused;
      var validity, uidNext := server.Status(name);
      entry := EntryOf(validity, uidNext);
      ghost var noStatus, atStatus := validity.None? || uidNext.None?, server.boxes;
      Told(name, before, server.refused, noStatus, false);
      server.Interleave();
      ghost var atSearch := server.boxes;
      var found: Option<seq<nat>> := None;
      var yielded: seq<nat> := [];
      NewUids(prev, entry, None);
      if !UpToDate(prev, entry) {
        var selected := server.Select(name);
        if !selected {
          return entry, msgs, true, [];
        }
        found := server.Search(name, StartUid(prev, entry));
        Told(name, before, server.refused, noStatus, found.None?);
        if found.Some? {
          yielded := From(found.value, StartUid(prev, entry));
        }
      }
      uids := yielded;
      NewUids(prev, entry, found);
      all, aborted := FetchAll(name, entry.uidValidity, yielded, msgs);
      LaterTrans(atStatus, atSearch, server.boxes);
      if !aborted {
        FetchedIds(name, entry.uidValidity, uids, msgs, all);
        if found.Some? || UpToDate(prev, entry) {
          FolderKept(atStatus, atSearch, server.boxes, name, prev, validity, uidNext, found, IdsOf(all));
        }
      }
    }

    /** iter_messages: the messages, and the cursor that is set when the enumeration ends. The cursor
        has the folders listed at the start; it covers each of them whose SEARCH was not refused,
        and reaches at least as far as each of them was at the start if its STATUS was not refused. */
    method IterMessages(excluded: set<string>, since: Cursor)
      returns (msgs: seq<Message>, cursor: Cursor, aborted: bool)
      requires ValidServer(server.boxes)
      modifies server
      ensures ValidServer(server.boxes) && Later(old(server.boxes), server.boxes)
      ensures server.aborts == old(server.aborts) + if aborted then 1 else 0
      ensures old(server.refused) <= server.refused && old(server.fetched) <= server.fetched
      ensures Reports(msgs, server.fetched[|old(server.fetched)|..])
      ensures !aborted ==>
                cursor.Keys == set name | name in old(server.boxes) && old(server.boxes)[name].listed && name !in excluded
      ensures !aborted ==>
                forall name <- cursor ::
                  name in Unsearched(server.refused[|old(server.refused)|..])
                  || Kept(server.boxes, name, Prev(since, name), cursor[name], IdsOf(msgs))
      ensures !aborted ==>
                forall name <- cursor ::
                  name in NoStatus(server.refused[|old(server.refused)|..]) || Reaches(old(server.boxes), name, cursor[name])
      ensures !aborted ==> forall id <- IdsOf(msgs) :: NewMessage(since, cursor, id)
    {
      hide MessageId, Kept, IdsOf, Later, ValidServer, Reaches, Unsearched, NoStatus, NewMessage;
      msgs, cursor, aborted := [], map[], false;
      NoIds();
      LaterRefl(server.boxes);
      var listing := server.List(excluded);
      if listing.None? {
        return msgs, cursor, true;
      }
      var names := listing.value;
      ghost var start, before, fetched := server.boxes, server.refused, server.fetched;
      for i := 0 to |names|
        invariant ValidServer(server.boxes) && Later(start, server.boxes)
        invariant server.aborts == old(server.aborts) && before <= server.refused
        invariant fetched <= server.fetched && Reports(msgs, server.fetched[|fetched|..])
        invariant cursor.Keys == set name <- names[..i]
        invariant AllKept(server.boxes, since, cursor, IdsOf(msgs), server.refused[|before|..])
        invariant AllReach(start, cursor, server.refused[|before|..])
        invariant forall id <- IdsOf(msgs) :: NewMessage(since, cursor, id)
      {
        var name := names[i];
        assert names[..i + 1] == names[..i] + [name];
        ghost var was, read := msgs, server.fetched;
        cursor, msgs, aborted := Extend(name, since, cursor, msgs, start, before);
        ReportsOn(was, msgs, fetched, read, server.fetched);
        if aborted {
          return msgs, cursor, true;
        }
      }
      assert names[..|names|] == names;
    }

    /** The cursor and the messages with one more folder. */
    method Extend(name: string, since: Cursor, cursor: Cursor, msgs: seq<Message>, ghost start: Mailboxes,
                  ghost before: seq<Refusal>)
      returns (cursor': Cursor, all: seq<Message>, aborted: bool)
      requires ValidServer(server.boxes) && Later(start, server.boxes) && before <= server.refused && name !in cursor
      requires AllKept(server.boxes, since, cursor, IdsOf(msgs), server.refused[|before|..])
      requires AllReach(start, cursor, server.refused[|before|..])
      requires forall id <- IdsOf(msgs) :: NewMessage(since, cursor, id)
      modifies server
      ensures ValidServer(server.boxes) && Later(start, server.boxes) && before <= server.refused
      ensures server.aborts == old(server.aborts) + if aborted then 1 else 0
      ensures old(server.fetched) <= server.fetched
      ensures msgs <= all && Reports(all[|msgs|..], server.fetched[|old(server.fetched)|..])
      ensures !aborted ==>
                && cursor'.Keys == cursor.Keys + {name}
                && AllKept(server.boxes, since, cursor', IdsOf(all), server.refused[|before|..])
                && AllReach(start, cursor', server.refused[|before|..])
                && forall id <- IdsOf(all) :: NewMessage(since, cursor', id)
    {
      hide MessageId, Kept, IdsOf, Later, ValidServer, Reaches, Unsearched, NoStatus, NewMessage, AllKept, AllReach, Refuses;
      ghost var boxes, refused := server.boxes, server.refused;
      var entry;
      ghost var uids;
      entry, all, aborted, uids := ReadFolder(name, Prev(since, name), msgs);
      LaterTrans(start, boxes, server.boxes);
      RefusesMore(name, refused, server.refused);
      cursor' := cursor[name := entry];
      if !aborted {
        StillNew(since, cursor, name, entry, uids, IdsOf(msgs), IdsOf(all));
        MoreKept(boxes, server.boxes, since, cursor, name, entry, IdsOf(msgs), IdsOf(all),
                 refused[|before|..], server.refused[|before|..], server.refused[|refused|..]);
        MoreReach(start, boxes, cursor, name, entry,
                  refused[|before|..], server.refused[|before|..], server.refused[|refused|..]);
      }
    }
  }

  /** The entry is at least as far as the folder was. */
  predicate Reaches(boxes: Mailboxes, name: string, entry: FolderCursor) {
    name in boxes ==>
      entry.uidValidity > boxes[name].validity
      || (entry.uidValidity == boxes[name].validity && entry.uidNext >= boxes[name].uidNext)
  }

  /** Only commands on the folder were refused. */
  predicate Refuses(name: string, before: seq<Refusal>, after: seq<Refusal>) {
    before <= after && forall r <- after[|before|..] :: r.name == name
  }

  ghost predicate AllKept(boxes: Mailboxes, since: Cursor, cursor: Cursor, ids: set<SourceId>, refusals: seq<Refusal>) {
    forall name <- cursor :: name in Unsearched(refusals) || Kept(boxes, name, Prev(since, name), cursor[name], ids)
  }

  predicate AllReach(start: Mailboxes, cursor: Cursor, refusals: seq<Refusal>) {
    forall name <- cursor :: name in NoStatus(refusals) || Reaches(start, name, cursor[name])
  }

  lemma OneReply(m: Message, r: Fetched, v: nat)
    requires (m.fetchError <==> !r.body) && m.sourceId == MessageId(r.name, v, r.uid)
    ensures Reports([m], [r])
  {
    hide MessageId;
  }

  lemma RefusesMore(name: string, before: seq<Refusal>, after: seq<Refusal>)
    requires Refuses(name, before, after)
    ensures before <= after
  {
  }

  lemma Told(name: string, before: seq<Refusal>, after: seq<Refusal>, noStatus: bool, noSearch: bool)
    requires after == before + (if noStatus then [StatusRefused(name)] else []) + (if noSearch then [SearchRefused(name)] else [])
    ensures Refuses(name, before, after)
    ensures name in NoStatus(after[|before|..]) <==> noStatus
    ensures name in Unsearched(after[|before|..]) <==> noSearch
  {
    assert after[|before|..] == (if noStatus then [StatusRefused(name)] else []) + (if noSearch then [SearchRefused(name)] else []);
    if noStatus { assert after[|before|] == StatusRefused(name); }
    if noSearch { assert after[|after| - 1] == SearchRefused(name); }
  }

  lemma UnsearchedAdds(a: seq<Refusal>, b: seq<Refusal>)
    ensures Unsearched(a + b) == Unsearched(a) + Unsearched(b) && NoStatus(a + b) == NoStatus(a) + NoStatus(b)
  {
    assert forall r <- a :: r in a + b;
    assert forall r <- b :: r in a + b;
  }

  lemma MoreKept(boxes: Mailboxes, boxes': Mailboxes, since: Cursor, cursor: Cursor, name: string, entry: FolderCursor,
                 ids: set<SourceId>, ids': set<SourceId>, r: seq<Refusal>, r': seq<Refusal>, new': seq<Refusal>)
    requires ValidServer(boxes') && Later(boxes, boxes') && ids <= ids' && r' == r + new' && name !in cursor
    requires AllKept(boxes, since, cursor, ids, r)
    requires name in Unsearched(new') || Kept(boxes', name, Prev(since, name), entry, ids')
    ensures AllKept(boxes', since, cursor[name := entry], ids', r')
  {
    UnsearchedAdds(r, new');
    hide Kept, Later, ValidServer, Unsearched;
    forall other <- cursor
      ensures other in Unsearched(r') || Kept(boxes', other, Prev(since, other), cursor[other], ids')
    {
      if other !in Unsearched(r) { KeptLater(boxes, boxes', other, Prev(since, other), cursor[other], ids, ids'); }
    }
  }

  lemma MoreReach(start: Mailboxes, boxes: Mailboxes, cursor: Cursor, name: string, entry: FolderCursor,
                  r: seq<Refusal>, r': seq<Refusal>, new': seq<Refusal>)
    requires Later(start, boxes) && r' == r + new' && name !in cursor && AllReach(start, cursor, r)
    requires name in NoStatus(new') || Reaches(boxes, name, entry)
    ensures AllReach(start, cursor[name := entry], r')
  {
    UnsearchedAdds(r, new');
    hide NoStatus;
    if name in start { assert MailboxLater(start[name], boxes[name]); }
  }

  lemma FetchedIds(name: string, validity: nat, uids: seq<nat>, msgs: seq<Message>, all: seq<Message>)
    requires msgs <= all && |all| == |msgs| + |uids|
    requires forall i :: |msgs| <= i < |all| ==> all[i].sourceId == MessageId(name, validity, uids[i - |msgs|])
    ensures IdsOf(all) == IdsOf(msgs) + set uid <- uids :: MessageId(name, validity, uid)
  {
    hide MessageId;
    forall m <- msgs ensures m in all {
      var i :| 0 <= i < |msgs| && msgs[i] == m;
      assert all[i] == m;
    }
    forall uid <- uids ensures MessageId(name, validity, uid) in IdsOf(all) {
      var i :| 0 <= i < |uids| && uids[i] == uid;
      assert all[|msgs| + i] in all;
    }
    forall m <- all ensures m in msgs || exists uid <- uids :: m.sourceId == MessageId(name, validity, uid) {
      var i :| 0 <= i < |all| && all[i] == m;
      if i < |msgs| {
        assert msgs[i] == m;
      } else {
        assert uids[i - |msgs|] in uids;
      }
    }
  }

  /** The id is of a message that the previous cursor does not cover: a delta yields only new mail. */
  ghost predicate NewMessage(since: Cursor, cursor: Cursor, id: SourceId) {
    exists name: string, uid: nat ::
      && name in cursor && id == MessageId(name, cursor[name].uidValidity, uid)
      && !(name in since && since[name].uidValidity == cursor[name].uidValidity && uid < since[name].uidNext)
  }

  /** Messages stay new when the cursor gets the entry of one more folder. */
  lemma StillNew(since: Cursor, cursor: Cursor, name: string, entry: FolderCursor, uids: seq<nat>,
                 ids: set<SourceId>, all: set<SourceId>)
    requires name !in cursor && (forall id <- ids :: NewMessage(since, cursor, id))
    requires forall uid <- uids :: !Before(Prev(since, name), entry, uid)
    requires all == ids + set uid <- uids :: MessageId(name, entry.uidValidity, uid)
    ensures forall id <- all :: NewMessage(since, cursor[name := entry], id)
  {
    hide MessageId;
    forall id <- ids ensures NewMessage(since, cursor[name := entry], id) {
      var n: string, uid: nat :| n in cursor && id == MessageId(n, cursor[n].uidValidity, uid)
                                 && !(n in since && since[n].uidValidity == cursor[n].uidValidity && uid < since[n].uidNext);
      assert cursor[name := entry][n] == cursor[n];
    }
    forall uid <- uids ensures NewMessage(since, cursor[name := entry], MessageId(name, entry.uidValidity, uid)) {
      assert cursor[name := entry][name] == entry;
    }
  }

  lemma NoIds()
    ensures IdsOf([]) == {}
  {
  }

  lemma LaterRefl(boxes: Mailboxes)
    ensures Later(boxes, boxes)
  {
  }

  lemma NewUids(prev: Option<FolderCursor>, entry: FolderCursor, found: Option<seq<nat>>)
    ensures forall uid <- Yielded(prev, entry, found) :: !Before(prev, entry, uid)
  {
    if found.Some? { FromKeeps(found.value, StartUid(prev, entry)); }
  }

  lemma FolderKept(atStatus: Mailboxes, atSearch: Mailboxes, boxes: Mailboxes, name: string, prev: Option<FolderCursor>,
                   validity: Option<nat>, uidNext: Option<nat>, found: Option<seq<nat>>, ids: set<SourceId>)
    requires ValidServer(atStatus) && ValidServer(atSearch) && ValidServer(boxes)
    requires Later(atStatus, atSearch) && Later(atSearch, boxes)
    requires validity.Some? ==> name in atStatus && validity.value == atStatus[name].validity
    requires uidNext.Some? ==> name in atStatus && uidNext.value == atStatus[name].uidNext
    requires found.Some? ==>
               name in atSearch
               && forall uid: nat :: uid in found.value <==> uid in InRange(atSearch[name].live, StartUid(prev, EntryOf(validity, uidNext)))
    requires found.Some? || UpToDate(prev, EntryOf(validity, uidNext))
    requires var entry := EntryOf(validity, uidNext);
             forall uid <- Yielded(prev, entry, found) :: MessageId(name, entry.uidValidity, uid) in ids
    ensures Kept(boxes, name, prev, EntryOf(validity, uidNext), ids)
  {
    hide MessageId, InRange, Yielded;
    var entry := EntryOf(validity, uidNext);
    var yielded := set uid <- Yielded(prev, entry, found);
    if name in atStatus {
      assert MailboxLater(atStatus[name], atSearch[name]) && MailboxLater(atSearch[name], boxes[name]);
    }
    if name in boxes {
      assert ValidMailbox(boxes[name]);
      if validity.Some? && uidNext.Some? {
        assert ValidMailbox(atSearch[name]);
        SearchCovers(atStatus[name], atSearch[name], prev, found);
        CoversLater(atSearch[name], boxes[name], prev, entry, yielded);
      } else {
        BadStatusCovers(boxes[name], prev, validity, uidNext);
      }
    }
    CoversEnumerated(boxes, name, prev, entry, yielded, ids);
  }
}
