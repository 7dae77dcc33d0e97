/** How a message is taken apart before it is sent (microsoft/mail.py). Parsed messages are trees;
    a message/rfc822 part is a leaf of them, for neither walk ever descends into one. */
module Mime {
  import opened Wrappers

  datatype Disposition = Attachment | Inline | Other

  /** A part that travels outside the message body. */
  datatype File = File(name: string, ctype: string, data: Bytes)

  /** An embedded message has no file when its inner message is missing or cannot be serialized. */
  datatype Leaf =
    | Content(disposition: Disposition, ctype: string, filename: string, data: Bytes)
    | Embedded(disposition: Disposition, eml: Option<File>)
  {
    predicate HasFile() {
      Embedded? ==> eml.Some?
    }

    function ToFile(): File
      requires HasFile()
    {
      if Embedded? then eml.value else File(if filename == "" then "attachment" else filename, ctype, data)
    }
  }

  datatype Tree = Node(leaf: Leaf) | Multi(header: string, parts: seq<Tree>)

  // ----- the leaves, in document order -----------------------------------------------------

  function Leaves(t: Tree): seq<Leaf> {
    match t
    case Node(leaf) => [leaf]
    case Multi(_, parts) => LeavesAll(parts)
  }

  function LeavesAll(parts: seq<Tree>): seq<Leaf> {
    if parts == [] then [] else LeavesAll(parts[..|parts| - 1]) + Leaves(parts[|parts| - 1])
  }

  function Select(leaves: seq<Leaf>, p: Leaf -> bool): seq<Leaf> {
    if leaves == [] then []
    else
      var init, last := leaves[..|leaves| - 1], leaves[|leaves| - 1];
      Select(init, p) + if p(last) then [last] else []
  }

  lemma {:induction false} SelectAppend(a: seq<Leaf>, b: seq<Leaf>, p: Leaf -> bool)
    ensures Select(a + b, p) == Select(a, p) + Select(b, p)
  {
    if b == [] {
      assert a + b == a;
    } else {
      var init, last := b[..|b| - 1], b[|b| - 1];
      assert (a + b)[..|a + b| - 1] == a + init;
      SelectAppend(a, init, p);
    }
  }

  lemma SelectOne(leaf: Leaf, p: Leaf -> bool)
    ensures Select([leaf], p) == if p(leaf) then [leaf] else []
  {
    assert [leaf][..0] == [];
  }

  lemma {:induction false} SelectedBy(leaves: seq<Leaf>, p: Leaf -> bool)
    ensures forall leaf :: leaf in Select(leaves, p) <==> leaf in leaves && p(leaf)
  {
    if leaves != [] {
      var init, last := leaves[..|leaves| - 1], leaves[|leaves| - 1];
      assert leaves == init + [last];
      SelectedBy(init, p);
    }
  }

  /** The files of the leaves that have one. */
  function Files(leaves: seq<Leaf>): seq<File> {
    if leaves == [] then []
    else
      var last := leaves[|leaves| - 1];
      Files(leaves[..|leaves| - 1]) + if last.HasFile() then [last.ToFile()] else []
  }

  lemma {:induction false} FilesAppend(a: seq<Leaf>, b: seq<Leaf>)
    ensures Files(a + b) == Files(a) + Files(b)
  {
    if b == [] {
      assert a + b == a;
    } else {
      assert (a + b)[..|a + b| - 1] == a + b[..|b| - 1];
      FilesAppend(a, b[..|b| - 1]);
    }
  }

  // ----- pruning a message for MIME import --------------------------------------------------

  predicate Extracted(leaf: Leaf) {
    leaf.disposition.Attachment? && leaf.HasFile()
  }

  predicate Stays(leaf: Leaf) {
    !Extracted(leaf)
  }

  predicate Drops(t: Tree) {
    t.Node? && Extracted(t.leaf)
  }

  function Pruned(t: Tree): Tree {
    match t
    case Node(_) => t
    case Multi(h, parts) => Multi(h, PrunedAll(parts))
  }

  function PrunedAll(parts: seq<Tree>): seq<Tree> {
    if parts == [] then []
    else
      var last := parts[|parts| - 1];
      PrunedAll(parts[..|parts| - 1]) + if Drops(last) then [] else [Pruned(last)]
  }

  function Taken(leaves: seq<Leaf>): seq<File> {
    Files(Select(leaves, Extracted))
  }

  lemma TakenAppend(a: seq<Leaf>, b: seq<Leaf>)
    ensures Taken(a + b) == Taken(a) + Taken(b)
  {
    SelectAppend(a, b, Extracted);
    FilesAppend(Select(a, Extracted), Select(b, Extracted));
  }

  lemma LeavesSnoc(parts: seq<Tree>, t: Tree)
    ensures LeavesAll(parts + [t]) == LeavesAll(parts) + Leaves(t)
    ensures PrunedAll(parts + [t]) == PrunedAll(parts) + if Drops(t) then [] else [Pruned(t)]
  {
    assert (parts + [t])[..|parts|] == parts;
  }

  /** Main result. What stays in a multipart message and what is taken out of it are, each in
      document order, its leaves that are not and that are attachments. */
  lemma {:induction false} PruneSplits(t: Tree)
    ensures t.Multi? ==> Leaves(Pruned(t)) == Select(Leaves(t), Stays)
    decreases t, 1
  {
    if t.Multi? { PruneSplitsAll(t.parts); }
  }

  lemma PartSplits(t: Tree)
    requires t.Multi? ==> Leaves(Pruned(t)) == Select(Leaves(t), Stays)
    ensures Select(Leaves(t), Stays) == if Drops(t) then [] else Leaves(Pruned(t))
  {
    if t.Node? { SelectOne(t.leaf, Stays); }
    hide LeavesAll, PrunedAll, Select;
  }

  lemma PruneSplitsSnoc(init: seq<Tree>, last: Tree)
    requires LeavesAll(PrunedAll(init)) == Select(LeavesAll(init), Stays)
    requires last.Multi? ==> Leaves(Pruned(last)) == Select(Leaves(last), Stays)
    ensures LeavesAll(PrunedAll(init + [last])) == Select(LeavesAll(init + [last]), Stays)
  {
    hide *;
    LeavesSnoc(init, last);
    SelectAppend(LeavesAll(init), Leaves(last), Stays);
    PartSplits(last);
    LeavesSnoc(PrunedAll(init), Pruned(last));
    assert PrunedAll(init) + [] == PrunedAll(init);
  }

  lemma {:induction false} PruneSplitsAll(parts: seq<Tree>)
    ensures LeavesAll(PrunedAll(parts)) == Select(LeavesAll(parts), Stays)
    decreases parts, 0
  {
    if parts != [] {
      var init, last := parts[..|parts| - 1], parts[|parts| - 1];
      assert parts == init + [last];
      hide *;
      PruneSplitsAll(init);
      PruneSplits(last);
      PruneSplitsSnoc(init, last);
    }
  }

  /** Nothing is lost and nothing doubled exactly when the root is not itself an attachment: such a
      root is extracted and yet stays. */
  lemma {:induction false} PruneConserves(t: Tree)
    ensures (forall leaf: Leaf ::
               multiset(Leaves(Pruned(t)))[leaf] + multiset(Select(Leaves(t), Extracted))[leaf] == multiset(Leaves(t))[leaf])
            <==> !Drops(t)
  {
    if t.Node? {
      assert Leaves(t) == [] + [t.leaf];
      assert multiset(Leaves(t))[t.leaf] == 1;
      assert Select(Leaves(t), Extracted) == if Drops(t) then [t.leaf] else [];
    } else {
      PruneSplits(t);
      forall leaf: Leaf
        ensures multiset(Leaves(Pruned(t)))[leaf] + multiset(Select(Leaves(t), Extracted))[leaf] == multiset(Leaves(t))[leaf]
      {
        SelectCounts(Leaves(t), leaf);
      }
    }
  }

  lemma {:induction false} SelectCounts(leaves: seq<Leaf>, leaf: Leaf)
    ensures multiset(Select(leaves, Stays))[leaf] + multiset(Select(leaves, Extracted))[leaf] == multiset(leaves)[leaf]
  {
    if leaves != [] {
      var init, last := leaves[..|leaves| - 1], leaves[|leaves| - 1];
      assert leaves == init + [last];
      SelectCounts(init, leaf);
      hide Extracted;
    }
  }

  /** The file has the leaf's name, type and bytes; an attachment without a name gets one. */
  predicate Carries(f: File, leaf: Leaf) {
    match leaf
    case Content(_, ctype, filename, data) =>
      f.data == data && f.ctype == ctype && f.name == if filename == "" then "attachment" else filename
    case Embedded(_, eml) => eml == Some(f)
  }

  /** The files of selected leaves are those leaves, one for each and in order. */
  lemma {:induction false} FilesCarry(leaves: seq<Leaf>, p: Leaf -> bool)
    requires forall leaf :: p(leaf) ==> leaf.HasFile()
    ensures var chosen, files := Select(leaves, p), Files(Select(leaves, p));
            |files| == |chosen| && forall i :: 0 <= i < |files| ==> Carries(files[i], chosen[i])
  {
    if leaves != [] {
      var init, last := leaves[..|leaves| - 1], leaves[|leaves| - 1];
      FilesCarry(init, p);
      assert Select(leaves, p) == Select(init, p) + if p(last) then [last] else [];
      assert Select(init, p) + [] == Select(init, p);
      if p(last) { FileMore(Select(init, p), last); }
      hide Select, Files;
    }
  }

  lemma FileMore(chosen: seq<Leaf>, last: Leaf)
    requires last.HasFile()
    ensures Files(chosen + [last]) == Files(chosen) + [last.ToFile()] && Carries(last.ToFile(), last)
  {
    assert (chosen + [last])[..|chosen|] == chosen;
  }

  /** What is taken out of a multipart message: the leaves marked as attachments, an embedded message only if it
      can be serialized. */
  lemma PruneTakes(t: Tree, leaf: Leaf)
    requires t.Multi?
    ensures leaf in Leaves(Pruned(t)) <==>
              leaf in Leaves(t) && !(leaf.disposition == Attachment && (leaf.Embedded? ==> leaf.eml != None))
    ensures leaf in Select(Leaves(t), Extracted) <==>
              leaf in Leaves(t) && leaf.disposition == Attachment && (leaf.Embedded? ==> leaf.eml != None)
  {
    PruneSplits(t);
    SelectedBy(Leaves(t), Stays);
    SelectedBy(Leaves(t), Extracted);
    hide Leaves, Pruned;
  }

  /** The multiparts alone: how the message is nested. */
  function Nesting(t: Tree): Tree {
    match t
    case Node(_) => t
    case Multi(h, parts) => Multi(h, NestingAll(parts))
  }

  function NestingAll(parts: seq<Tree>): seq<Tree> {
    if parts == [] then []
    else
      var last := parts[|parts| - 1];
      NestingAll(parts[..|parts| - 1]) + if last.Node? then [] else [Nesting(last)]
  }

  lemma NestingSnoc(parts: seq<Tree>, t: Tree)
    ensures NestingAll(parts + [t]) == NestingAll(parts) + if t.Node? then [] else [Nesting(t)]
  {
    assert (parts + [t])[..|parts|] == parts;
  }

  /** No multipart is ever dropped or moved, not even one that is left empty, and pruning a pruned
      message changes nothing. */
  lemma {:induction false} PruneKeepsNesting(t: Tree)
    ensures t.Multi? ==> Nesting(Pruned(t)) == Nesting(t)
    ensures Pruned(Pruned(t)) == Pruned(t)
    decreases t, 1
  {
    if t.Multi? { PruneKeepsNestingAll(t.parts); }
  }

  lemma {:induction false} PruneKeepsNestingAll(parts: seq<Tree>)
    ensures NestingAll(PrunedAll(parts)) == NestingAll(parts)
    ensures PrunedAll(PrunedAll(parts)) == PrunedAll(parts)
    decreases parts, 0
  {
    if parts != [] {
      var init, last := parts[..|parts| - 1], parts[|parts| - 1];
      PruneKeepsNestingAll(init);
      PruneKeepsNesting(last);
      assert parts == init + [last];
      LeavesSnoc(init, last);
      NestingSnoc(init, last);
      NestingSnoc(PrunedAll(init), Pruned(last));
      LeavesSnoc(PrunedAll(init), Pruned(last));
      assert PrunedAll(init) + [] == PrunedAll(init);
      hide LeavesAll, PrunedAll, NestingAll, Extracted;
    }
  }

  // ----- the body and files of JSON import ---------------------------------------------------

  predicate SentAsFile(leaf: Leaf)
    ensures SentAsFile(leaf) ==> leaf.HasFile()
  {
    leaf.HasFile()
    && (leaf.Embedded? || leaf.disposition.Attachment? || leaf.filename != ""
        || (leaf.disposition.Inline? && !("text/" <= leaf.ctype)))
  }

  predicate IsHtml(leaf: Leaf)
    ensures IsHtml(leaf) ==> leaf.Content?
  {
    leaf.Content? && !SentAsFile(leaf) && leaf.ctype == "text/html"
  }

  predicate IsPlain(leaf: Leaf)
    ensures IsPlain(leaf) ==> leaf.Content?
  {
    leaf.Content? && !SentAsFile(leaf) && leaf.ctype == "text/plain"
  }

  /** Where JSON import puts a leaf. Files are the embedded messages that can be serialized, and of the contents
      those marked as attachments, those with a name, and those inline that are no text; of the rest, HTML
      and plain text go to the bodies, and everything else nowhere. */
  lemma JsonSorts(leaves: seq<Leaf>, leaf: Leaf)
    ensures var file := match leaf
                        case Embedded(_, eml) => eml != None
                        case Content(disposition, ctype, filename, _) =>
                          disposition == Attachment || filename != "" || (disposition == Inline && !("text/" <= ctype));
            && (leaf in Select(leaves, SentAsFile) <==> leaf in leaves && file)
            && (leaf in Select(leaves, IsHtml) <==> leaf in leaves && leaf.Content? && !file && leaf.ctype == "text/html")
            && (leaf in Select(leaves, IsPlain) <==> leaf in leaves && leaf.Content? && !file && leaf.ctype == "text/plain")
  {
    SelectedBy(leaves, SentAsFile);
    SelectedBy(leaves, IsHtml);
    SelectedBy(leaves, IsPlain);
    hide Select;
  }

  function Texts(leaves: seq<Leaf>): seq<Bytes> {
    if leaves == [] then []
    else
      var last := leaves[|leaves| - 1];
      Texts(leaves[..|leaves| - 1]) + if last.Content? then [last.data] else []
  }

  lemma {:induction false} TextsAppend(a: seq<Leaf>, b: seq<Leaf>)
    ensures Texts(a + b) == Texts(a) + Texts(b)
  {
    if b == [] {
      assert a + b == a;
    } else {
      assert (a + b)[..|a + b| - 1] == a + b[..|b| - 1];
      TextsAppend(a, b[..|b| - 1]);
    }
  }

  /** The HTML and plain-text bodies and the files a JSON message is built from. */
  datatype Message = Message(html: seq<Bytes>, text: seq<Bytes>, files: seq<File>)

  function Gathered(m: Message, leaves: seq<Leaf>): Message {
    Message(m.html + Texts(Select(leaves, IsHtml)), m.text + Texts(Select(leaves, IsPlain)),
            m.files + Files(Select(leaves, SentAsFile)))
  }

  lemma GatheredNone(m: Message)
    ensures Gathered(m, []) == m
  {
  }

  lemma GatheredOne(m: Message, leaf: Leaf)
    ensures Gathered(m, [leaf]) ==
            if SentAsFile(leaf) then m.(files := m.files + [leaf.ToFile()])
            else if IsHtml(leaf) then m.(html := m.html + [leaf.data])
            else if IsPlain(leaf) then m.(text := m.text + [leaf.data])
            else m
  {
    SelectOne(leaf, IsHtml);
    SelectOne(leaf, IsPlain);
    SelectOne(leaf, SentAsFile);
    TextsAppend([], [leaf]);
    FilesAppend([], [leaf]);
    assert [] + [leaf] == [leaf];
  }

  lemma GatheredAppend(m: Message, a: seq<Leaf>, b: seq<Leaf>)
    ensures Gathered(m, a + b) == Gathered(Gathered(m, a), b)
  {
    SelectAppend(a, b, IsHtml);
    SelectAppend(a, b, IsPlain);
    SelectAppend(a, b, SentAsFile);
    TextsAppend(Select(a, IsHtml), Select(b, IsHtml));
    TextsAppend(Select(a, IsPlain), Select(b, IsPlain));
    FilesAppend(Select(a, SentAsFile), Select(b, SentAsFile));
    hide Select, Texts, Files;
  }

  /** The leaf reaches the destination: as a file, or in the body, which is HTML if any part is. */
  predicate Carried(leaf: Leaf, all: seq<Leaf>) {
    SentAsFile(leaf) || (if Select(all, IsHtml) != [] then IsHtml(leaf) else IsPlain(leaf))
  }

  /** Neither a file nor a text the body can hold. */
  predicate Unsendable(leaf: Leaf) {
    !SentAsFile(leaf) && !IsHtml(leaf) && !IsPlain(leaf)
  }

  /** JSON import carries the whole message exactly when every part is a file, HTML or plain text,
      and the message has no plain text beside HTML. */
  lemma JsonCarriesAll(leaves: seq<Leaf>)
    ensures (forall leaf <- leaves :: Carried(leaf, leaves))
            <==> (forall leaf <- leaves :: !Unsendable(leaf))
                 && (Select(leaves, IsHtml) == [] || Select(leaves, IsPlain) == [])
  {
    SelectedBy(leaves, IsHtml);
    SelectedBy(leaves, IsPlain);
    hide SentAsFile;
    if Select(leaves, IsPlain) != [] { assert Select(leaves, IsPlain)[0] in Select(leaves, IsPlain); }
    if Select(leaves, IsHtml) != [] { assert Select(leaves, IsHtml)[0] in Select(leaves, IsHtml); }
    assert forall leaf :: !(IsHtml(leaf) && IsPlain(leaf));
  }
}
