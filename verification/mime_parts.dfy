/** The two walks over a parsed message (microsoft/mail.py), on the parts themselves: prune rewrites
    the payloads in place, visit only reads them. */
module MimeParts {
  import opened Wrappers
  import opened Mime

  /** The attachments taken out so far. */
  class Extract {
    var files: seq<File>

    constructor ()
      ensures files == []
    {
      files := [];
    }
  }

  /** What the JSON message is built from. */
  class Parts {
    var html: seq<Bytes>
    var text: seq<Bytes>
    var files: seq<File>

    constructor ()
      ensures html == text == [] && files == []
    {
      html, text, files := [], [], [];
    }

    ghost function Abs(): Message
      reads this
    {
      Message(html, text, files)
    }

    method Add(leaf: Leaf)
      modifies this
      ensures Abs() == Gathered(old(Abs()), [leaf])
    {
      GatheredOne(Abs(), leaf);
      hide Gathered, SentAsFile, IsHtml, IsPlain;
      if SentAsFile(leaf) {
        files := files + [leaf.ToFile()];
      } else if IsHtml(leaf) {
        html := html + [leaf.data];
      } else if IsPlain(leaf) {
        text := text + [leaf.data];
      }
    }
  }

  class Part {
    const leaf: Option<Leaf>
    const header: string
    var payload: seq<Part>
    ghost var tree: Tree
    ghost var repr: set<object>

    /** `tree` is what the part and the parts below it stand for. */
    ghost predicate Valid()
      reads this, repr
      decreases repr, 1
    {
      && this in repr
      && ValidChildren()
      && match leaf
         case Some(l) => payload == [] && tree == Node(l)
         case None => tree.Multi? && tree.header == header && |tree.parts| == |payload|
                      && forall i :: 0 <= i < |payload| ==> payload[i].tree == tree.parts[i]
    }

    ghost predicate ValidChildren()
      requires this in repr
      reads this, repr
      decreases repr, 0
    {
      && (forall c <- payload :: c in repr && c.repr <= repr && this !in c.repr && c.Valid())
      && (forall i, j :: 0 <= i < j < |payload| ==> payload[i].repr !! payload[j].repr)
    }

    /** Pruning one child leaves its siblings alone. */
    method PruneChild(i: nat, out: Extract) returns (drop: bool)
      requires this in repr && ValidChildren() && out !in repr && i < |payload|
      modifies repr - {this}, out
      decreases repr, 0
      ensures ValidChildren()
      ensures forall j :: 0 <= j < |payload| ==>
                payload[j].tree == if j == i then Pruned(old(payload[i].tree)) else old(payload[j].tree)
      ensures drop == Drops(old(payload[i].tree))
      ensures out.files == old(out.files) + Taken(Leaves(old(payload[i].tree)))
    {
      hide Pruned, Taken, Leaves, Drops;
      assert payload[i] in payload;
      drop := payload[i].Prune(out);
      forall j | 0 <= j < |payload| && j != i
        ensures payload[j].Valid() && payload[j].repr == old(payload[j].repr) && payload[j].tree == old(payload[j].tree)
      {
        assert payload[j] in payload && payload[j].repr !! payload[i].repr;
      }
    }

    /** Prunes the children and returns those to keep. */
    method PruneChildren(out: Extract) returns (kept: seq<Part>)
      requires Valid() && out !in repr && leaf.None?
      modifies repr - {this}, out
      decreases repr, 1
      ensures ValidChildren()
      ensures |kept| == |PrunedAll(tree.parts)|
      ensures forall k :: 0 <= k < |kept| ==> kept[k] in payload && kept[k].tree == PrunedAll(tree.parts)[k]
      ensures forall a, b :: 0 <= a < b < |kept| ==> kept[a].repr !! kept[b].repr
      ensures out.files == old(out.files) + Taken(LeavesAll(tree.parts))
    {
      ghost var was := tree.parts;
      hide Pruned, PrunedAll, Taken, Leaves, Drops, Grown, Keepers, ValidChildren;
      kept := [];
      NothingYet(out.files, was);
      for i := 0 to |payload|
        invariant ValidChildren()
        invariant forall j :: 0 <= j < |payload| ==> payload[j].tree == if j < i then Pruned(was[j]) else was[j]
        invariant kept == Keepers(payload[..i], was[..i])
        invariant out.files == Grown(old(out.files), was, i)
      {
        var drop := PruneChild(i, out);
        KeepersSnoc(payload, was, i);
        GrownSnoc(old(out.files), was, i);
        if !drop {
          kept := kept + [payload[i]];
        }
      }
      WholeGrown(old(out.files), was);
      assert payload[..|payload|] == payload && was[..|payload|] == was;
      assert forall a, b :: 0 <= a < b < |payload| ==> payload[a].repr !! payload[b].repr by { Apart(); }
      KeepersPruned(payload, was);
    }

    lemma Apart()
      requires this in repr && ValidChildren()
      ensures forall a, b :: 0 <= a < b < |payload| ==> payload[a].repr !! payload[b].repr
    {
    }

    method SetPayload(kept: seq<Part>, ghost trees: seq<Tree>)
      requires this in repr && leaf.None? && ValidChildren() && |kept| == |trees|
      requires forall k :: 0 <= k < |kept| ==> kept[k] in payload && kept[k].tree == trees[k]
      requires forall a, b :: 0 <= a < b < |kept| ==> kept[a].repr !! kept[b].repr
      modifies this`payload, this`tree
      ensures Valid() && repr == old(repr) && tree == Multi(header, trees)
    {
      payload, tree := kept, Multi(header, trees);
    }

    /** prune: true when the parent should drop this part. */
    method Prune(out: Extract) returns (drop: bool)
      requires Valid() && out !in repr
      modifies repr, out
      decreases repr, 2
      ensures Valid() && repr == old(repr)
      ensures tree == Pruned(old(tree))
      ensures drop == Drops(old(tree))
      ensures out.files == old(out.files) + Taken(Leaves(old(tree)))
    {
      if leaf.None? {
        OfParts(tree);
        hide Pruned, PrunedAll, Drops, Leaves, LeavesAll, Taken;
        var kept := PruneChildren(out);
        SetPayload(kept, PrunedAll(tree.parts));
        return false;
      }
      TakenOne(leaf.value);
      hide Taken;
      if leaf.value.disposition.Attachment? && leaf.value.HasFile() {
        out.files := out.files + [leaf.value.ToFile()];
        return true;
      }
      return false;
    }

    method VisitChildren(out: Parts)
      requires Valid() && out !in repr && leaf.None?
      modifies out
      decreases repr, 0
      ensures out.Abs() == Gathered(old(out.Abs()), LeavesAll(tree.parts))
    {
      ghost var was, before := tree.parts, out.Abs();
      GatheredNone(before);
      assert was[..0] == [] && LeavesAll([]) == [] && was[..|was|] == was;
      hide Gathered, Leaves, LeavesAll;
      for i := 0 to |payload|
        invariant out.Abs() == Gathered(before, LeavesAll(was[..i]))
      {
        assert payload[i] in payload;
        payload[i].Visit(out);
        GatheredSnoc(before, was, i);
      }
    }

    /** visit: adds what the part holds to the message under construction. */
    method Visit(out: Parts)
      requires Valid() && out !in repr
      modifies out
      decreases repr, 1
      ensures out.Abs() == Gathered(old(out.Abs()), Leaves(tree))
    {
      if leaf.None? {
        OfParts(tree);
        hide Gathered, Leaves, LeavesAll;
        VisitChildren(out);
        return;
      }
      OfLeaf(leaf.value);
      hide Gathered, Leaves;
      out.Add(leaf.value);
    }
  }

  /** _split_large_attachments: the message is stripped in place. */
  method SplitLargeAttachments(msg: Part) returns (files: seq<File>)
    requires msg.Valid()
    modifies msg.repr
    ensures msg.Valid() && msg.tree == Pruned(old(msg.tree))
    ensures msg.tree.Multi? ==> Leaves(msg.tree) == Select(Leaves(old(msg.tree)), Stays)
    ensures files == Files(Select(Leaves(old(msg.tree)), Extracted))
    ensures var taken := Select(Leaves(old(msg.tree)), Extracted);
            |files| == |taken| && forall i :: 0 <= i < |files| ==> Carries(files[i], taken[i])
  {
    FilesCarry(Leaves(msg.tree), Extracted);
    var out := new Extract();
    PruneSplits(msg.tree);
    hide Leaves, Pruned, Select;
    var _ := msg.Prune(out);
    files := out.files;
  }

  /** _graph_body_and_attachments: HTML wins over plain text. */
  method GraphBodyAndAttachments(msg: Part) returns (isHtml: bool, content: Bytes, files: seq<File>)
    requires msg.Valid()
    ensures var leaves := Leaves(msg.tree);
            && (isHtml <==> Select(leaves, IsHtml) != [])
            && content == Concat(Texts(Select(leaves, if isHtml then IsHtml else IsPlain)))
            && files == Files(Select(leaves, SentAsFile))
            && |files| == |Select(leaves, SentAsFile)|
            && forall i :: 0 <= i < |files| ==> Carries(files[i], Select(leaves, SentAsFile)[i])
  {
    FilesCarry(Leaves(msg.tree), SentAsFile);
    var out := new Parts();
    msg.Visit(out);
    HtmlTexts(Leaves(msg.tree));
    GatheredFromNothing(Leaves(msg.tree));
    hide Gathered, Select, Texts, Files, Leaves, Concat;
    isHtml, files := out.html != [], out.files;
    content := Concat(if isHtml then out.html else out.text);
  }

  lemma GatheredFromNothing(leaves: seq<Leaf>)
    ensures Gathered(Message([], [], []), leaves)
              == Message(Texts(Select(leaves, IsHtml)), Texts(Select(leaves, IsPlain)), Files(Select(leaves, SentAsFile)))
  {
  }

  function Concat(texts: seq<Bytes>): Bytes {
    if texts == [] then [] else texts[0] + Concat(texts[1..])
  }

  /** The texts one after the other. */
  lemma {:induction false} ConcatJoins(a: seq<Bytes>, b: seq<Bytes>, text: Bytes)
    ensures Concat([text]) == text && Concat(a + b) == Concat(a) + Concat(b)
  {
    assert [text][1..] == [];
    if a == [] {
      assert a + b == b;
    } else {
      assert (a + b)[1..] == a[1..] + b;
      ConcatJoins(a[1..], b, text);
    }
  }

  lemma {:induction false} HtmlTexts(leaves: seq<Leaf>)
    ensures |Texts(Select(leaves, IsHtml))| == |Select(leaves, IsHtml)|
  {
    if leaves != [] {
      var init, last := leaves[..|leaves| - 1], leaves[|leaves| - 1];
      HtmlTexts(init);
      SelectOne(last, IsHtml);
      assert leaves == init + [last];
      SelectAppend(init, [last], IsHtml);
      TextsAppend(Select(init, IsHtml), Select([last], IsHtml));
      if IsHtml(last) { TextsAppend([], [last]); assert [] + [last] == [last]; }
      hide Select, IsHtml;
    }
  }

  /** The parts that prune keeps, given what they stood for. */
  function Keepers(parts: seq<Part>, was: seq<Tree>): seq<Part>
    requires |parts| == |was|
  {
    if parts == [] then []
    else
      var n := |parts| - 1;
      Keepers(parts[..n], was[..n]) + if Drops(was[n]) then [] else [parts[n]]
  }

  lemma KeepersSnoc(parts: seq<Part>, was: seq<Tree>, i: nat)
    requires i < |parts| == |was|
    ensures Keepers(parts[..i + 1], was[..i + 1])
              == Keepers(parts[..i], was[..i]) + if Drops(was[i]) then [] else [parts[i]]
  {
    assert parts[..i + 1][..i] == parts[..i] && was[..i + 1][..i] == was[..i];
  }

  lemma {:induction false} KeepersPruned(parts: seq<Part>, was: seq<Tree>)
    requires |parts| == |was| && forall j :: 0 <= j < |was| ==> parts[j].tree == Pruned(was[j])
    requires forall i, j :: 0 <= i < j < |parts| ==> parts[i].repr !! parts[j].repr
    ensures var kept := Keepers(parts, was);
            && |kept| == |PrunedAll(was)|
            && (forall k :: 0 <= k < |kept| ==> kept[k] in parts && kept[k].tree == PrunedAll(was)[k])
            && (forall a, b :: 0 <= a < b < |kept| ==> kept[a].repr !! kept[b].repr)
  {
    if parts != [] {
      var n := |parts| - 1;
      hide Pruned, Drops;
      KeepersPruned(parts[..n], was[..n]);
      assert forall c <- parts[..n] :: c.repr !! parts[n].repr;
      assert parts[n] in parts;
    }
  }

  /** `before` and the files of the first i parts. */
  ghost function Grown(before: seq<File>, was: seq<Tree>, i: nat): seq<File>
    requires i <= |was|
  {
    before + Taken(LeavesAll(was[..i]))
  }

  lemma NothingYet(before: seq<File>, was: seq<Tree>)
    ensures Grown(before, was, 0) == before
  {
    assert was[..0] == [];
  }

  lemma WholeGrown(before: seq<File>, was: seq<Tree>)
    ensures Grown(before, was, |was|) == before + Taken(LeavesAll(was))
  {
    assert was[..|was|] == was;
  }

  lemma GrownSnoc(before: seq<File>, was: seq<Tree>, i: nat)
    requires i < |was|
    ensures Grown(before, was, i + 1) == Grown(before, was, i) + Taken(Leaves(was[i]))
  {
    assert was[..i + 1] == was[..i] + [was[i]];
    LeavesSnoc(was[..i], was[i]);
    TakenAppend(LeavesAll(was[..i]), Leaves(was[i]));
    hide Taken, LeavesAll, Leaves;
    FilesAssociate(before, Taken(LeavesAll(was[..i])), Taken(Leaves(was[i])));
  }

  lemma FilesAssociate(a: seq<File>, b: seq<File>, c: seq<File>)
    ensures a + (b + c) == a + b + c
  {
  }

  lemma OfLeaf(leaf: Leaf)
    ensures Leaves(Node(leaf)) == [leaf]
  {
  }

  lemma OfParts(t: Tree)
    requires t.Multi?
    ensures Leaves(t) == LeavesAll(t.parts) && Pruned(t) == Multi(t.header, PrunedAll(t.parts)) && !Drops(t)
  {
  }

  lemma GatheredSnoc(m: Message, was: seq<Tree>, i: nat)
    requires i < |was|
    ensures Gathered(m, LeavesAll(was[..i + 1])) == Gathered(Gathered(m, LeavesAll(was[..i])), Leaves(was[i]))
  {
    assert was[..i + 1] == was[..i] + [was[i]];
    LeavesSnoc(was[..i], was[i]);
    GatheredAppend(m, LeavesAll(was[..i]), Leaves(was[i]));
    hide Gathered, LeavesAll, Leaves;
  }

  lemma TakenOne(leaf: Leaf)
    ensures Taken([leaf]) == if Extracted(leaf) then [leaf.ToFile()] else []
  {
    SelectOne(leaf, Extracted);
    FilesAppend([], [leaf]);
    assert [leaf] == [] + [leaf];
  }
}
