/** The body of ensure_folder (microsoft/files.py), which ensure_mail_folder shares: one caller
    among many, every Graph request of it a step of the machine in GetOrCreate. */
module EnsureFolder {
  import opened Wrappers
  import opened GetOrCreate

  datatype Listing = Found(id: Id) | Missing | Error

  datatype Reply = Created(id: Id) | NameTaken | Error

  predicate About(e: Event, c: nat) {
    !e.Elsewhere? && e.c == c
  }

  class Drive {
    const fold: string -> string
    ghost const start: World
    var world: World
    ghost var run: seq<Event>

    ghost predicate Valid()
      reads this
    {
      Unique(fold, start.items) && start.calls == map[] && world == After(fold, start, run)
    }

    constructor (fold: string -> string, items: map<Id, Item>)
      requires Unique(fold, items)
      ensures Valid() && world == World(items, map[])
    {
      this.fold, start, world, run := fold, World(items, map[]), World(items, map[]), [];
    }

    method Step(e: Event)
      requires Valid()
      modifies this
      ensures Valid() && run == old(run) + [e] && world == Do(fold, old(world), e)
    {
      hide Do;
      assert (run + [e])[..|run|] == run;
      world, run := Do(fold, world, e), run + [e];
    }

    /** Anything the others do between two requests of call c. */
    method Interleave(c: nat)
      requires Valid() && c in world.calls
      modifies this
      ensures Valid() && old(run) <= run && c in world.calls && world.calls[c] == old(world).calls[c]
    {
      var events: seq<Event> := *;
      for i := 0 to |events|
        invariant Valid() && old(run) <= run && c in world.calls && world.calls[c] == old(world).calls[c]
      {
        if !About(events[i], c) {
          Step(events[i]);
        }
      }
    }

    /** A page of the children: true entries, but any may be missing. */
    method Page(parent: Option<Id>) returns (page: Option<seq<(Id, Item)>>)
      ensures page.Some? ==> forall entry <- page.value ::
                entry.0 in world.items && world.items[entry.0] == entry.1 && entry.1.parent == parent
    {
      page := *;
      if page.Some? && !(forall entry <- page.value ::
            entry.0 in world.items && world.items[entry.0] == entry.1 && entry.1.parent == parent) {
        page := None;
      }
    }

    /** _find_child_folder: every page in turn, up to the first folder of the name. */
    method FindChild(c: nat, parent: Option<Id>, name: string) returns (r: Listing)
      requires Valid() && c in world.calls
      requires world.calls[c] == Call(parent, name, Phase.Listing) || world.calls[c] == Call(parent, name, Relisting)
      modifies this
      ensures Valid() && old(run) <= run && c in world.calls
      ensures world.calls[c] == Call(parent, name,
                match r
                case Found(id) => Done(id)
                case Missing => if old(world).calls[c].phase == Phase.Listing then Posting else Raised
                case Error => Raised)
    {
      var pages: nat :| pages >= 0;
      for p := 0 to pages
        invariant Valid() && old(run) <= run && c in world.calls && world.calls[c] == old(world).calls[c]
      {
        Interleave(c);
        var page := Page(parent);
        if page.None? {
          Step(Failed(c));
          return Listing.Error;
        }
        for k := 0 to |page.value| {
          var (id, item) := page.value[k];
          if item.folder && fold(item.name) == fold(name) {
            assert page.value[k] in page.value;
            Step(Listed(c, Some(id)));
            return Found(id);
          }
        }
      }
      Step(Listed(c, None));
      return Missing;
    }

    /** POST with conflictBehavior "fail". */
    method Post(c: nat) returns (r: Reply)
      requires Valid() && InPhase(world, c, Posting)
      modifies this
      ensures Valid() && old(run) <= run && c in world.calls
      ensures world.calls[c] == old(world).calls[c].(phase :=
                match r case Created(id) => Done(id) case NameTaken => Relisting case Error => Raised)
    {
      var id: Id, fails: bool := *, *;
      if Held(fold, world.items, world.calls[c].Folder().Key(fold)) {
        Step(Conflict(c));
        return NameTaken;
      }
      if fails || id in world.items {
        Step(Failed(c));
        return Reply.Error;
      }
      Step(Posted(c, id));
      return Created(id);
    }

    /** The folder's id, or None when the call raises. */
    method EnsureFolder(c: nat, parent: Option<Id>, name: string) returns (r: Option<Id>)
      requires Valid() && c !in world.calls
      modifies this
      ensures Valid() && old(run) <= run && c in world.calls
      ensures world.calls[c] == Call(parent, name, if r.Some? then Done(r.value) else Raised)
    {
      Step(Begin(c, parent, name));
      hide Possible, After, Do, Unique;
      var existing := FindChild(c, parent, name);
      if existing.Found? {
        return Some(existing.id);
      }
      if existing.Error? {
        return None;
      }
      Interleave(c);
      var created := Post(c);
      if created.Created? {
        return Some(created.id);
      }
      if created.Error? {
        return None;
      }
      Interleave(c);
      var resolved := FindChild(c, parent, name);
      return if resolved.Found? then Some(resolved.id) else None;
    }
  }
}
