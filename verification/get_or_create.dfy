/** ensure_folder (microsoft/files.py) and ensure_mail_folder (microsoft/mail.py): list, create,
    list again after a 409, while any number of other callers do the same. `fold` is the sense in
    which the destination holds names unique: case folding on a drive, identity in a mailbox. */
module GetOrCreate {
  import opened Wrappers

  type Id = nat
  type Key = (Option<Id>, string)

  datatype Item = Item(parent: Option<Id>, name: string, folder: bool)
  {
    function Key(fold: string -> string): Key {
      (parent, fold(name))
    }
  }

  datatype Phase = Listing | Posting | Relisting | Done(id: Id) | Raised

  /** One call of ensure_folder and how far it has got. */
  datatype Call = Call(parent: Option<Id>, name: string, phase: Phase)
  {
    function Folder(): Item {
      Item(parent, name, true)
    }
  }

  datatype World = World(items: map<Id, Item>, calls: map<nat, Call>)

  /** A reply to one Graph request of a call; Elsewhere is anyone else's new item. */
  datatype Event =
    | Begin(c: nat, parent: Option<Id>, name: string)
    | Listed(c: nat, found: Option<Id>)
    | Posted(c: nat, id: Id)
    | Conflict(c: nat)
    | Failed(c: nat)
    | Elsewhere(id: Id, item: Item)

  /** Parents hold their names once. */
  ghost predicate Unique(fold: string -> string, items: map<Id, Item>) {
    forall i, j :: i in items && j in items && items[i].Key(fold) == items[j].Key(fold) ==> i == j
  }

  predicate Held(fold: string -> string, items: map<Id, Item>, key: Key) {
    exists i :: i in items && items[i].Key(fold) == key
  }

  ghost predicate HeldBy(fold: string -> string, items: map<Id, Item>, key: Key, folder: bool) {
    exists i :: i in items && items[i].Key(fold) == key && items[i].folder == folder
  }

  predicate InPhase(w: World, c: nat, phase: Phase) {
    c in w.calls && w.calls[c].phase == phase
  }

  predicate FolderAt(fold: string -> string, items: map<Id, Item>, call: Call, id: Id) {
    id in items && items[id].folder && items[id].Key(fold) == call.Folder().Key(fold)
  }

  /** What the server may answer. A listing reports true entries only, but may miss any. */
  predicate Possible(fold: string -> string, w: World, e: Event) {
    match e
    case Begin(c, parent, name) => c !in w.calls
    case Listed(c, found) =>
      (InPhase(w, c, Listing) || InPhase(w, c, Relisting))
      && (found.Some? ==> FolderAt(fold, w.items, w.calls[c], found.value))
    case Posted(c, id) =>
      InPhase(w, c, Posting) && id !in w.items && !Held(fold, w.items, w.calls[c].Folder().Key(fold))
    case Conflict(c) => InPhase(w, c, Posting) && Held(fold, w.items, w.calls[c].Folder().Key(fold))
    case Failed(c) => InPhase(w, c, Listing) || InPhase(w, c, Posting) || InPhase(w, c, Relisting)
    case Elsewhere(id, item) => id !in w.items && !Held(fold, w.items, item.Key(fold))
  }

  function Turn(w: World, c: nat, phase: Phase): World
    requires c in w.calls
  {
    w.(calls := w.calls[c := w.calls[c].(phase := phase)])
  }

  /** One step; an answer the server cannot give does not happen. */
  function Do(fold: string -> string, w: World, e: Event): World {
    if !Possible(fold, w, e) then w else
    match e
    case Begin(c, parent, name) => w.(calls := w.calls[c := Call(parent, name, Listing)])
    case Listed(c, found) =>
      Turn(w, c, if found.Some? then Done(found.value) else if w.calls[c].phase == Listing then Posting else Raised)
    case Posted(c, id) => Turn(w, c, Done(id)).(items := w.items[id := w.calls[c].Folder()])
    case Conflict(c) => Turn(w, c, Relisting)
    case Failed(c) => Turn(w, c, Raised)
    case Elsewhere(id, item) => w.(items := w.items[id := item])
  }

  function After(fold: string -> string, w: World, run: seq<Event>): World {
    if run == [] then w else Do(fold, After(fold, w, run[..|run| - 1]), run[|run| - 1])
  }

  // ----- what every run keeps --------------------------------------------------------------

  ghost predicate Kept(fold: string -> string, w0: World, w: World) {
    && Unique(fold, w.items)
    && (forall i <- w0.items :: i in w.items && w.items[i] == w0.items[i])
    && (forall c <- w.calls :: w.calls[c].phase.Done? ==> FolderAt(fold, w.items, w.calls[c], w.calls[c].phase.id))
    && (forall c <- w.calls :: w.calls[c].phase == Relisting ==> Held(fold, w.items, w.calls[c].Folder().Key(fold)))
  }

  lemma HeldGrows(fold: string -> string, items: map<Id, Item>, id: Id, item: Item, key: Key)
    requires id !in items
    ensures Held(fold, items[id := item], key) <==> Held(fold, items, key) || key == item.Key(fold)
  {
    var items' := items[id := item];
    if Held(fold, items, key) {
      var i :| i in items && items[i].Key(fold) == key;
      assert i in items' && items'[i].Key(fold) == key;
    }
    assert items'[id].Key(fold) == item.Key(fold);
  }

  lemma KeptStep(fold: string -> string, w0: World, w: World, e: Event)
    requires Kept(fold, w0, w)
    ensures Kept(fold, w0, Do(fold, w, e))
  {
    var w' := Do(fold, w, e);
    if (e.Posted? || e.Elsewhere?) && Possible(fold, w, e) {
      var item := if e.Posted? then w.calls[e.c].Folder() else e.item;
      assert w'.items == w.items[e.id := item];
      forall c <- w'.calls | w'.calls[c].phase == Relisting
        ensures Held(fold, w'.items, w'.calls[c].Folder().Key(fold))
      {
        HeldGrows(fold, w.items, e.id, item, w'.calls[c].Folder().Key(fold));
      }
    }
  }

  lemma {:induction false} RunKeeps(fold: string -> string, w0: World, run: seq<Event>)
    requires Unique(fold, w0.items) && w0.calls == map[]
    ensures Kept(fold, w0, After(fold, w0, run))
  {
    if run != [] {
      hide Do, Kept, Unique;
      RunKeeps(fold, w0, run[..|run| - 1]);
      KeptStep(fold, w0, After(fold, w0, run[..|run| - 1]), run[|run| - 1]);
    }
  }

  /** Main result. Whatever the interleaving, and whatever the listings miss, the calls that succeed
      for one parent and folded name all return one folder of that name, and none succeeds when a
      file held the name at the start. */
  lemma CallersAgree(fold: string -> string, w0: World, run: seq<Event>, c: nat, d: nat)
    requires Unique(fold, w0.items) && w0.calls == map[]
    ensures var w := After(fold, w0, run);
            c in w.calls && w.calls[c].phase.Done? ==>
              var call := w.calls[c];
              && call.phase.id in w.items && w.items[call.phase.id].folder
              && w.items[call.phase.id].parent == call.parent && fold(w.items[call.phase.id].name) == fold(call.name)
              && !HeldBy(fold, w0.items, call.Folder().Key(fold), false)
              && (d in w.calls && w.calls[d].phase.Done? && w.calls[d].Folder().Key(fold) == call.Folder().Key(fold) ==>
                    w.calls[d].phase.id == call.phase.id)
  {
    RunKeeps(fold, w0, run);
  }

  /** A folder that a call creates has the call's own parent and name, and nothing else changes on the drive. */
  lemma PostMakes(fold: string -> string, w: World, c: nat, id: Id)
    requires Possible(fold, w, Posted(c, id))
    ensures c in w.calls && id !in w.items
    ensures Do(fold, w, Posted(c, id)).items == w.items[id := Item(w.calls[c].parent, w.calls[c].name, true)]
    ensures forall i <- w.items :: !(w.items[i].parent == w.calls[c].parent && fold(w.items[i].name) == fold(w.calls[c].name))
  {
    assert forall i <- w.items :: w.items[i].Key(fold) != w.calls[c].Folder().Key(fold);
  }

  // ----- one creation per name -------------------------------------------------------------

  ghost predicate Creates(fold: string -> string, w: World, e: Event, key: Key) {
    Possible(fold, w, e)
    && ((e.Posted? && w.calls[e.c].Folder().Key(fold) == key) || (e.Elsewhere? && e.item.Key(fold) == key))
  }

  ghost function Creations(fold: string -> string, w: World, run: seq<Event>, key: Key): nat {
    if run == [] then 0
    else
      var init, e := run[..|run| - 1], run[|run| - 1];
      Creations(fold, w, init, key) + if Creates(fold, After(fold, w, init), e, key) then 1 else 0
  }

  ghost function Copies(fold: string -> string, items: map<Id, Item>, key: Key): nat {
    if Held(fold, items, key) then 1 else 0
  }

  lemma CreationStep(fold: string -> string, w: World, e: Event, key: Key)
    ensures Copies(fold, Do(fold, w, e).items, key)
              == Copies(fold, w.items, key) + if Creates(fold, w, e, key) then 1 else 0
  {
    if (e.Posted? || e.Elsewhere?) && Possible(fold, w, e) {
      var item := if e.Posted? then w.calls[e.c].Folder() else e.item;
      assert Do(fold, w, e).items == w.items[e.id := item];
      HeldGrows(fold, w.items, e.id, item, key);
    }
  }

  /** A name is created exactly when it was free at the start and is held at the end, so a run
      creates it at most once however many calls want it. */
  lemma {:induction false} CreatedAtMostOnce(fold: string -> string, w0: World, run: seq<Event>, key: Key)
    ensures Copies(fold, w0.items, key) + Creations(fold, w0, run, key) == Copies(fold, After(fold, w0, run).items, key) <= 1
  {
    if run != [] {
      hide Do, Creates, Copies;
      CreatedAtMostOnce(fold, w0, run[..|run| - 1], key);
      CreationStep(fold, After(fold, w0, run[..|run| - 1]), run[|run| - 1], key);
    }
    assert Copies(fold, After(fold, w0, run).items, key) <= 1;
  }

  // ----- when a call succeeds --------------------------------------------------------------

  /** The event answers call c: no request of it fails, and its second listing misses nothing. */
  ghost predicate Answers(fold: string -> string, w: World, e: Event, c: nat) {
    !(e.Failed? && e.c == c)
    && (e == Listed(c, None) && InPhase(w, c, Relisting) ==> !HeldBy(fold, w.items, w.calls[c].Folder().Key(fold), true))
  }

  ghost predicate Answered(fold: string -> string, w: World, run: seq<Event>, c: nat) {
    forall n :: 0 <= n < |run| ==> Answers(fold, After(fold, w, run[..n]), run[n], c)
  }

  ghost predicate RaisedForFile(fold: string -> string, w: World, c: nat) {
    InPhase(w, c, Raised) ==> HeldBy(fold, w.items, w.calls[c].Folder().Key(fold), false)
  }

  lemma RaisedStep(fold: string -> string, w0: World, w: World, e: Event, c: nat)
    requires Kept(fold, w0, w) && RaisedForFile(fold, w, c) && Answers(fold, w, e, c)
    ensures RaisedForFile(fold, Do(fold, w, e), c)
  {
    var w' := Do(fold, w, e);
    if InPhase(w', c, Raised) {
      var key := w'.calls[c].Folder().Key(fold);
      if InPhase(w, c, Raised) {
        var i :| i in w.items && w.items[i].Key(fold) == key && !w.items[i].folder;
        assert i in w'.items && w'.items[i] == w.items[i];
      } else {
        assert e == Listed(c, None) && InPhase(w, c, Relisting);
        assert Held(fold, w.items, key);
      }
    }
  }

  lemma {:induction false} RaisedOnlyForFile(fold: string -> string, w0: World, run: seq<Event>, c: nat)
    requires Unique(fold, w0.items) && w0.calls == map[] && Answered(fold, w0, run, c)
    ensures RaisedForFile(fold, After(fold, w0, run), c)
  {
    if run != [] {
      var init, e := run[..|run| - 1], run[|run| - 1];
      assert run == init + [e];
      assert Answered(fold, w0, init, c) by {
        forall n | 0 <= n < |init| ensures Answers(fold, After(fold, w0, init[..n]), init[n], c) {
          assert run[..n] == init[..n] && run[n] == init[n];
          assert Answers(fold, After(fold, w0, run[..n]), run[n], c);
        }
      }
      assert Answers(fold, After(fold, w0, run[..|init|]), run[|init|], c);
      hide Do, RaisedForFile, Answers, Kept, Answered, Unique;
      RaisedOnlyForFile(fold, w0, init, c);
      RunKeeps(fold, w0, init);
      RaisedStep(fold, w0, After(fold, w0, init), e, c);
    }
  }

  /** A call none of whose requests fails, and whose second listing is complete, ends with a folder
      exactly when no file holds its name. */
  lemma {:induction false} SucceedsUnlessFile(fold: string -> string, w0: World, run: seq<Event>, c: nat)
    requires Unique(fold, w0.items) && w0.calls == map[] && Answered(fold, w0, run, c)
    ensures var w := After(fold, w0, run);
            c in w.calls && (w.calls[c].phase.Done? || w.calls[c].phase.Raised?) ==>
              (w.calls[c].phase.Done? <==> !HeldBy(fold, w.items, w.calls[c].Folder().Key(fold), false))
  {
    RaisedOnlyForFile(fold, w0, run, c);
    RunKeeps(fold, w0, run);
    hide After, Answered, Answers;
  }
}
