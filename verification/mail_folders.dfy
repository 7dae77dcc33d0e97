/** The folder resolver of run_mail (_get_folder in workloads/mail_job.py, resolve_folder_segment
    in microsoft/mail.py): a cache from folder paths to destination folders. */
module MailFolders {
  import opened Wrappers
  import opened State

  /** A destination mail folder: a well-known one, or the one of a name in its parent (None is the
      top level). Names are exact and unique in a parent. */
  datatype Folder = WellKnown(id: string) | Named(parent: Option<Folder>, name: string)

  /** WELL_KNOWN_FOLDER_IDS. */
  function WellKnownId(part: string): Option<string> {
    match part
    case "Inbox" => Some("inbox")
    case "SentItems" => Some("sentitems")
    case "Drafts" => Some("drafts")
    case "DeletedItems" => Some("deleteditems")
    case "JunkEmail" => Some("junkemail")
    case "Archive" => Some("archive")
    case _ => None
  }

  // ----- paths -----------------------------------------------------------------------------

  /** str.split("\\"). */
  function Split(s: string): (parts: seq<string>)
    ensures parts != []
    ensures forall part <- parts :: '\\' !in part
  {
    if s == "" then [""]
    else
      var rest := Split(s[1..]);
      if s[0] == '\\' then [""] + rest else [[s[0]] + rest[0]] + rest[1..]
  }

  /** "\\".join(parts). */
  function JoinPath(parts: seq<string>): string
    requires parts != []
  {
    if |parts| == 1 then parts[0] else parts[0] + "\\" + JoinPath(parts[1..])
  }

  lemma {:induction false} JoinSplit(s: string)
    ensures JoinPath(Split(s)) == s
  {
    if s != "" {
      JoinSplit(s[1..]);
      var rest := Split(s[1..]);
      if s[0] == '\\' {
        assert ([""] + rest)[1..] == rest;
      } else {
        assert ([[s[0]] + rest[0]] + rest[1..])[1..] == rest[1..];
      }
    }
  }

  lemma {:induction false} SplitFirst(part: string, rest: string)
    requires '\\' !in part
    ensures Split(part) == [part]
    ensures Split(part + "\\" + rest) == [part] + Split(rest)
  {
    var s := part + "\\" + rest;
    if part == "" {
      assert s[1..] == rest;
    } else {
      SplitFirst(part[1..], rest);
      assert s[1..] == part[1..] + "\\" + rest;
      assert part[0] in part;
      assert [part[0]] + part[1..] == part;
    }
  }

  lemma {:induction false} SplitJoin(parts: seq<string>)
    requires parts != [] && forall part <- parts :: '\\' !in part
    ensures Split(JoinPath(parts)) == parts
  {
    SplitFirst(parts[0], if |parts| == 1 then "" else JoinPath(parts[1..]));
    if |parts| > 1 { SplitJoin(parts[1..]); }
  }

  // ----- what a path stands for ------------------------------------------------------------

  /** resolve_folder_segment: only the top segment can be a system folder. */
  function ResolveSegment(part: string, isTopLevel: bool): Option<string> {
    if isTopLevel then WellKnownId(part) else None
  }

  function Step(parent: Option<Folder>, part: string): Folder {
    var wellKnown := ResolveSegment(part, parent.None?);
    if wellKnown.Some? then WellKnown(wellKnown.value) else Named(parent, part)
  }

  /** The folder reached from the top by following the segments. */
  function Denotes(parts: seq<string>): Folder
    requires parts != []
  {
    var n := |parts| - 1;
    Step(if n == 0 then None else Some(Denotes(parts[..n])), parts[n])
  }

  /** Where a folder is: the well-known folder at its top, if there is one, and the names below it from the
      top down. */
  datatype Place = Place(top: Option<string>, names: seq<string>)

  function Route(f: Folder): Place {
    match f
    case WellKnown(id) => Place(Some(id), [])
    case Named(None, name) => Place(None, [name])
    case Named(Some(parent), name) => Place(Route(parent).top, Route(parent).names + [name])
  }

  /** The place that a path names: its segments from the top down, below the system folder if the first segment
      is a token for one. */
  function PlaceOf(parts: seq<string>): Place
    requires parts != []
  {
    if WellKnownId(parts[0]).Some? then Place(WellKnownId(parts[0]), parts[1..]) else Place(None, parts)
  }

  /** Main result. The folder that a path stands for is where the path says. */
  lemma {:induction false} DenotesPlace(parts: seq<string>)
    requires parts != []
    ensures Route(Denotes(parts)) == PlaceOf(parts)
  {
    hide WellKnownId;
    var n := |parts| - 1;
    if n > 0 {
      DenotesPlace(parts[..n]);
      assert parts[..n] + [parts[n]] == parts;
      assert parts[..n][1..] + [parts[n]] == parts[1..];
      assert parts[..n][0] == parts[0];
    }
  }

  /** Two paths share a folder only if they are equal. */
  lemma PathsShareNothing(a: string, b: string)
    requires Denotes(Split(a)) == Denotes(Split(b))
    ensures a == b
  {
    DenotesPlace(Split(a));
    DenotesPlace(Split(b));
    JoinSplit(a);
    JoinSplit(b);
    hide Denotes, Split, JoinPath, WellKnownId;
    var x, y := Split(a), Split(b);
    if WellKnownId(x[0]).Some? {
      SameToken(x[0], y[0]);
      assert x == [x[0]] + x[1..] && y == [y[0]] + y[1..];
    }
  }

  function LowerChar(c: char): char {
    if 'A' <= c <= 'Z' then c - 'A' + 'a' else c
  }

  /** The id is the token in lower case. */
  predicate IsLowerCase(id: string, token: string) {
    |id| == |token| && forall i :: 0 <= i < |id| ==> id[i] == LowerChar(token[i])
  }

  const TOKENS := {"Inbox", "SentItems", "Drafts", "DeletedItems", "JunkEmail", "Archive"}

  lemma TokenIsLowered()
    ensures IsLowerCase("inbox", "Inbox") && IsLowerCase("sentitems", "SentItems") && IsLowerCase("drafts", "Drafts")
    ensures IsLowerCase("deleteditems", "DeletedItems") && IsLowerCase("junkemail", "JunkEmail") && IsLowerCase("archive", "Archive")
  {
  }

  /** The system folders, each known by its token in lower case. */
  lemma TokensNameFolders(part: string)
    ensures WellKnownId(part).Some? <==> part in TOKENS
    ensures WellKnownId(part).Some? ==> IsLowerCase(WellKnownId(part).value, part)
  {
    if part in TOKENS {
      assert part == "Inbox" || part == "SentItems" || part == "Drafts" || part == "DeletedItems"
             || part == "JunkEmail" || part == "Archive";
      TokenIsLowered();
    } else {
      hide IsLowerCase;
    }
  }

  /** Different system folders have different tokens. */
  lemma SameToken(a: string, b: string)
    ensures WellKnownId(a).Some? && WellKnownId(a) == WellKnownId(b) ==> a == b
  {
  }

  predicate IsWellKnown(path: string) {
    Denotes(Split(path)).WellKnown?
  }

  /** The path of the first n segments. */
  function PathOf(parts: seq<string>, n: nat): string
    requires 0 < n <= |parts|
  {
    JoinPath(parts[..n])
  }

  predicate IsPath(parts: seq<string>) {
    parts != [] && forall part <- parts :: '\\' !in part
  }

  lemma PathSplits(parts: seq<string>, n: nat)
    requires IsPath(parts) && 0 < n <= |parts|
    ensures Split(PathOf(parts, n)) == parts[..n]
  {
    SplitJoin(parts[..n]);
  }

  lemma PathsDiffer(parts: seq<string>, m: nat, n: nat)
    requires IsPath(parts) && 0 < m <= |parts| && 0 < n <= |parts| && PathOf(parts, m) == PathOf(parts, n)
    ensures m == n
  {
    PathSplits(parts, m);
    PathSplits(parts, n);
    assert |parts[..m]| == m && |parts[..n]| == n;
  }

  /** The entry is the folder its path stands for, and its parent path is cached. */
  predicate Cached(cache: map<string, Folder>, path: string) {
    var parts := Split(path);
    && path in cache && cache[path] == Denotes(parts)
    && (|parts| > 1 ==> PathOf(parts, |parts| - 1) in cache)
  }

  lemma CachedDenotes(cache: map<string, Folder>, path: string)
    requires path in cache && forall p <- cache :: Cached(cache, p)
    ensures cache[path] == Denotes(Split(path))
  {
    assert Cached(cache, path);
  }

  lemma WholePath(path: string)
    ensures IsPath(Split(path)) && PathOf(Split(path), |Split(path)|) == path
  {
    JoinSplit(path);
    assert Split(path)[..|Split(path)|] == Split(path);
  }

  lemma CacheGrows(cache: map<string, Folder>, parts: seq<string>, i: nat)
    requires IsPath(parts) && i < |parts| && (i > 0 ==> PathOf(parts, i) in cache)
    requires forall path <- cache :: Cached(cache, path)
    ensures var cache' := cache[PathOf(parts, i + 1) := Denotes(parts[..i + 1])];
            forall path <- cache' :: Cached(cache', path)
  {
    PathSplits(parts, i + 1);
    if i > 0 { assert parts[..i + 1][..i] == parts[..i]; }
    var cache' := cache[PathOf(parts, i + 1) := Denotes(parts[..i + 1])];
    forall path <- cache' ensures Cached(cache', path) {
      if path != PathOf(parts, i + 1) { assert Cached(cache, path); }
    }
  }

  /** The prefixes of a cached path are cached. */
  lemma {:induction false} PrefixesCached(cache: map<string, Folder>, parts: seq<string>, n: nat, i: nat)
    requires IsPath(parts) && 0 < i <= n <= |parts| && PathOf(parts, n) in cache
    requires forall path <- cache :: Cached(cache, path)
    ensures PathOf(parts, i) in cache
    decreases n - i
  {
    if i < n {
      assert Cached(cache, PathOf(parts, n));
      PathSplits(parts, n);
      assert parts[..n][..n - 1] == parts[..n - 1];
      PrefixesCached(cache, parts, n - 1, i);
    }
  }

  lemma DenotesStep(parts: seq<string>, i: nat)
    requires i < |parts|
    ensures Denotes(parts[..i + 1]) == Step(if i == 0 then None else Some(Denotes(parts[..i])), parts[i])
  {
    assert parts[..i + 1][..i] == parts[..i];
  }

  /** Resolving the path of the first n segments meets no Graph call that raises. */
  predicate Passes(parts: seq<string>, n: nat, cache: map<string, Folder>, raising: set<string>)
    requires 0 < n <= |parts|
  {
    PathOf(parts, n) in cache || (n == 1 && WellKnownId(parts[0]).Some?) || PathOf(parts, n) !in raising
  }

  class FolderCache {
    const store: Store<Folder, string>
    /** folder_cache of one run. */
    var cache: map<string, Folder>
    /** The folders that a Graph call made or found in this run. */
    ghost var ensured: multiset<string>

    /** The cache is closed under prefixes, every entry is the folder its path stands for and is in
        the store, and no path was ensured twice. */
    ghost predicate Valid()
      reads this, store
    {
      && (forall path <- cache :: Cached(cache, path))
      && (forall path <- cache :: path in store.folders && store.folders[path] == cache[path])
      && (forall path: string :: ensured[path] == if path in cache && !IsWellKnown(path) then 1 else 0)
    }

    constructor (store: Store<Folder, string>)
      ensures Valid() && this.store == store && cache == map[]
    {
      this.store, cache, ensured := store, map[], multiset{};
    }

    /** ensure_mail_folder; None if the Graph call raises. */
    method EnsureFolder(path: string, parent: Option<Folder>, name: string, raising: set<string>)
      returns (folder: Option<Folder>)
      modifies this`ensured
      ensures folder == if path in raising then None else Some(Named(parent, name))
      ensures ensured == if path in raising then old(ensured) else old(ensured) + multiset{path}
    {
      if path in raising {
        return None;
      }
      ensured := ensured + multiset{path};
      return Some(Named(parent, name));
    }

    /** The folder of a segment in its parent: a system folder, or one that a Graph call ensures. */
    method Segment(path: string, part: string, parent: Option<Folder>, raising: set<string>) returns (dest: Option<Folder>)
      modifies this`ensured
      ensures dest.Some? <==> (parent.None? && WellKnownId(part).Some?) || path !in raising
      ensures dest.Some? ==> dest.value == Step(parent, part)
      ensures dest.Some? ==>
                if parent.None? && WellKnownId(part).Some? then Route(dest.value) == Place(WellKnownId(part), [])
                else Route(dest.value).names == (if parent.Some? then Route(parent.value).names else []) + [part]
      ensures ensured == if dest.Some? && dest.value.Named? then old(ensured) + multiset{path} else old(ensured)
    {
      hide WellKnownId;
      var wellKnown := ResolveSegment(part, parent.None?);
      if wellKnown.Some? {
        return Some(WellKnown(wellKnown.value));
      }
      dest := EnsureFolder(path, parent, part, raising);
    }

    /** One segment that is not cached yet. */
    method Extend(parts: seq<string>, i: nat, parent: Option<Folder>, raising: set<string>) returns (dest: Option<Folder>)
      requires Valid() && IsPath(parts) && i < |parts| && PathOf(parts, i + 1) !in cache
      requires parent == if i == 0 then None else Some(Denotes(parts[..i]))
      requires i > 0 ==> PathOf(parts, i) in cache
      modifies this, store`folders
      ensures Valid()
      ensures dest.Some? <==> Passes(parts, i + 1, old(cache), raising)
      ensures dest.Some? ==> dest.value == Denotes(parts[..i + 1]) && cache == old(cache)[PathOf(parts, i + 1) := dest.value]
      ensures dest.None? ==> cache == old(cache)
    {
      hide Split, JoinPath, Denotes, Cached, PathOf, IsPath, WellKnownId;
      DenotesStep(parts, i);
      PathSplits(parts, i + 1);
      CacheGrows(cache, parts, i);
      hide Step;
      var current := PathOf(parts, i + 1);
      dest := Segment(current, parts[i], parent, raising);
      if dest.Some? {
        cache := cache[current := dest.value];
        store.UpsertFolder(current, dest.value);
      }
    }

    /** The folder of a path, or None when a Graph call raises midway; `raising` are the paths whose
        call raises this time. What was resolved before the call raised stays cached, and the final
        lookup never fails. */
    method GetFolder(path: string, raising: set<string>) returns (folder: Option<Folder>)
      requires Valid()
      modifies this, store`folders
      ensures Valid()
      ensures forall p <- old(cache) :: p in cache && cache[p] == old(cache)[p]
      ensures folder.Some? ==> path in cache && folder.value == cache[path] == Denotes(Split(path))
      ensures folder.Some? ==> Route(folder.value) == PlaceOf(Split(path))
      ensures var parts := Split(path);
              folder.Some? <==> forall n :: 0 < n <= |parts| ==> Passes(parts, n, old(cache), raising)
    {
      hide JoinPath, Denotes, IsWellKnown, Split, Cached, PathOf, IsPath, WellKnownId, Route, PlaceOf;
      var parts := Split(path);
      DenotesPlace(parts);
      WholePath(path);
      if path in cache {
        forall n | 0 < n <= |parts| ensures PathOf(parts, n) in cache { PrefixesCached(cache, parts, |parts|, n); }
        CachedDenotes(cache, path);
        return Some(cache[path]);
      }
      var parent: Option<Folder> := None;
      for i := 0 to |parts|
        invariant Valid() && (forall p <- old(cache) :: p in cache && cache[p] == old(cache)[p])
        invariant forall p <- cache :: p in old(cache) || exists k :: 0 < k <= i && p == PathOf(parts, k)
        invariant i > 0 ==> PathOf(parts, i) in cache
        invariant forall n :: 0 < n <= i ==> Passes(parts, n, old(cache), raising)
        invariant parent == if i == 0 then None else Some(Denotes(parts[..i]))
      {
        var current := PathOf(parts, i + 1);
        NotNewer(parts, i, old(cache), cache);
        if current in cache {
          CachedDenotes(cache, current);
          PathSplits(parts, i + 1);
          parent := Some(cache[current]);
        } else {
          parent := Extend(parts, i, parent, raising);
          if parent.None? {
            assert !Passes(parts, i + 1, old(cache), raising);
            return None;
          }
        }
      }
      CachedDenotes(cache, path);
      return Some(cache[path]);
    }
  }

  /** A path met by the loop is cached only if it was before the call. */
  lemma NotNewer(parts: seq<string>, i: nat, cache0: map<string, Folder>, cache: map<string, Folder>)
    requires IsPath(parts) && i < |parts|
    requires forall p <- cache :: p in cache0 || exists k :: 0 < k <= i && p == PathOf(parts, k)
    ensures PathOf(parts, i + 1) in cache ==> PathOf(parts, i + 1) in cache0
  {
    hide PathOf;
    if k :| 0 < k <= i && PathOf(parts, i + 1) == PathOf(parts, k) {
      PathsDiffer(parts, i + 1, k);
    }
  }
}
