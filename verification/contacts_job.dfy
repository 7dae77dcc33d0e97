/** run_contacts itself (workloads/contacts_job.py), proved to compute ContactsPass. The cursor
    is the number of the snapshot it names. */
module ContactsJob {
  import opened Wrappers
  import opened State
  import opened ContactsPass

  class Job {
    const store: Store<nat, nat>
    /** The destination, reached through the Graph client. */
    var live: map<nat, Copy>
    var next: nat

    constructor (store: Store<nat, nat>, live: map<nat, Copy>, next: nat)
      ensures this.store == store && this.live == live && this.next == next
    {
      this.store, this.live, this.next := store, live, next;
    }

    ghost function Abs(): World
      reads this, store
    {
      World(store.items, live, next)
    }

    /** delete_contact; already gone counts as done. */
    method DeleteContact(dest: nat, call: Call) returns (raised: bool)
      modifies this`live
      ensures raised <==> call.Raises?
      ensures live == if raised then old(live) else old(live) - {dest}
    {
      if call.Raises? {
        return true;
      }
      live := live - {dest};
      return false;
    }

    method UpdateContact(dest: nat, body: string, call: Call) returns (raised: bool)
      modifies this`live
      ensures raised <==> call.Raises? || dest !in old(live)
      ensures live == if raised then old(live) else old(live)[dest := old(live)[dest].(body := body)]
    {
      if call.Raises? || dest !in live {
        return true;
      }
      live := live[dest := live[dest].(body := body)];
      return false;
    }

    method CreateContact(c: Contact, call: Call) returns (dest: Option<nat>)
      modifies this`live, this`next
      ensures dest == if call.Raises? then None else Some(old(next))
      ensures live == if call.Raises? then old(live) else old(live)[old(next) := Copy(c.sourceId, c.body)]
      ensures next == if call.Raises? then old(next) else old(next) + 1
    {
      if call.Raises? {
        return None;
      }
      dest := Some(next);
      live := live[next := Copy(c.sourceId, c.body)];
      next := next + 1;
    }

    method ProcessTombstone(id: SourceId, dest: Option<nat>, call: Call) returns (r: Result)
      requires dest == DestOf(store.items, id) && !call.DiesBefore?
      modifies this, store`items
      ensures (Abs(), r) == Tombstone(old(Abs()), id, call)
    {
      if dest.Some? {
        var raised := DeleteContact(dest.value, call);
        if raised {
          store.UpsertItem(id, Failed, dest, None);
          return Failure;
        }
      }
      if call.DiesAfter? {
        return Death;
      }
      store.UpsertItem(id, Skipped, None, None);
      return Fine;
    }

    method MigrateContact(c: Contact, state: Option<Row<nat>>, dest: Option<nat>, call: Call) returns (r: Result)
      requires state == store.ItemState(c.sourceId) && dest == DestOf(store.items, c.sourceId) && !call.DiesBefore?
      modifies this, store`items
      ensures (Abs(), r) == Migrate(old(Abs()), c, call)
    {
      var destId, raised := dest, false;
      if dest.Some? {
        raised := UpdateContact(dest.value, c.body, call);
      } else {
        destId := CreateContact(c, call);
        raised := destId.None?;
      }
      if call.DiesAfter? {
        return Death;
      }
      if raised {
        // The destination copy still is what the recorded hash says, so both are kept.
        store.UpsertItem(c.sourceId, Failed, dest, if state.Some? then state.value.sourceHash else None);
        return Failure;
      }
      store.UpsertItem(c.sourceId, Done, destId, Marker(c.hash));
      return Fine;
    }

    /** One turn of the loop. */
    method Process(mode: Mode, item: Item) returns (r: Result)
      modifies this, store`items
      ensures (Abs(), r) == Step(mode, old(Abs()), item)
    {
      var c := item.contact;
      if item.call.DiesBefore? {
        return Death;
      }
      var state := store.ItemState(c.sourceId);
      var dest := if state.Some? then state.value.destId else None;
      if c.deleted {
        r := ProcessTombstone(c.sourceId, dest, item.call);
        return;
      }
      if state.Some? && state.value.status.Done? {
        var sameMarker := c.hash != "" && state.value.sourceHash == Some(c.hash);
        if !mode.Delta? || sameMarker {
          return if item.call.DiesAfter? then Death else Fine;
        }
      }
      r := MigrateContact(c, state, dest, item.call);
    }

    /** A delta without a cursor does nothing; the new cursor is stored only after a pass that ended
        without a failure. */
    method Run(mode: Mode, feed: seq<Item>, newCursor: Option<nat>) returns (died: bool)
      modifies this, store
      ensures mode.Delta? && old(store.cursor).None? ==>
                !died && Abs() == old(Abs()) && store.cursor == old(store.cursor)
      ensures !(mode.Delta? && old(store.cursor).None?) ==>
                var p := RunFeed(mode, old(Abs()), feed);
                && Abs() == p.world && died == p.died
                && store.cursor == if Clean(p) && newCursor.Some? then newCursor else old(store.cursor)
    {
      if mode.Delta? && store.cursor.None? {
        return false;
      }
      hide Step, RunFeed;
      var failures := 0;
      ghost var start := Abs();
      assert Progress(Abs(), 0, false) == RunFeed(mode, start, feed[..0]) by { EmptyFeed(mode, start, feed[..0]); }
      for i := 0 to |feed|
        invariant store.cursor == old(store.cursor)
        invariant Progress(Abs(), failures, false) == RunFeed(mode, start, feed[..i])
      {
        OneMore(mode, start, feed, i);
        var r := Process(mode, feed[i]);
        if r.Death? {
          DeadStays(mode, start, feed, i + 1, |feed|);
          assert feed[..|feed|] == feed;
          return true;
        }
        failures := failures + if r.Failure? then 1 else 0;
      }
      assert feed[..|feed|] == feed;
      if newCursor.Some? && failures == 0 {
        store.SaveCursor(newCursor.value);
      }
      return false;
    }
  }

  lemma EmptyFeed(mode: Mode, w: World, feed: seq<Item>)
    requires feed == []
    ensures RunFeed(mode, w, feed) == Progress(w, 0, false)
  {
  }

  lemma OneMore(mode: Mode, w: World, feed: seq<Item>, i: nat)
    requires i < |feed|
    ensures RunFeed(mode, w, feed[..i + 1]) == Advance(mode, RunFeed(mode, w, feed[..i]), feed[i])
  {
    hide Advance, RunFeed;
    var init, item := feed[..i], feed[i];
    assert feed[..i + 1] == init + [item];
    RunFeedStep(mode, w, init, item);
  }

  /** Nothing happens after the process died. */
  lemma DeadStays(mode: Mode, w: World, feed: seq<Item>, i: nat, j: nat)
    requires i <= j <= |feed| && RunFeed(mode, w, feed[..i]).died
    ensures RunFeed(mode, w, feed[..j]) == RunFeed(mode, w, feed[..i])
  {
    hide RunFeed, Step;
    if i < j {
      DeadStays(mode, w, feed, i, j - 1);
      OneMore(mode, w, feed, j - 1);
    }
  }
}
