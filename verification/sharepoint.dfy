/** ensure_site_for_drive (microsoft/sharepoint.py): a group is created, recorded, and then polled
    until its site exists; any request may raise and the whole may be called again at any time. */
module SharePoint {
  import opened Wrappers

  type DriveId = string
  type GroupId = nat

  datatype Site = Site(siteId: string, libraryId: string)

  /** Lost: the group was created, but the call did not live to record it. */
  datatype PostReply = Created(group: GroupId) | Lost(group: GroupId) | Refused

  /** NotYet stands for 404 and 503, Denied for every other error. */
  datatype PollReply = Ready(siteId: string) | NotYet | Denied

  /** How Graph answers the requests of one call. */
  datatype Replies = Replies(post: PostReply, polls: nat -> PollReply, library: Option<string>)

  /** The FolderMap rows, and what was asked of Graph: the groups created for each drive, and the
      number of requests. */
  datatype Book = Book(sites: map<DriveId, Site>, groups: map<DriveId, GroupId>,
                       created: multiset<DriveId>, requests: nat)

  const POLL_ATTEMPTS: nat := 30

  /** The site the k-th and later polls find, and how many polls that takes. */
  function Poll(polls: nat -> PollReply, k: nat): (r: (Option<string>, nat))
    requires k <= POLL_ATTEMPTS
    ensures k + r.1 <= POLL_ATTEMPTS
    decreases POLL_ATTEMPTS - k
  {
    if k == POLL_ATTEMPTS then (None, 0)
    else match polls(k)
      case Ready(id) => (Some(id), 1)
      case Denied => (None, 1)
      case NotYet => var (site, n) := Poll(polls, k + 1); (site, n + 1)
  }

  ghost predicate ReadyAt(polls: nat -> PollReply, k: nat, m: nat) {
    k <= m < POLL_ATTEMPTS && polls(m).Ready? && forall j: nat :: k <= j < m ==> polls(j) == NotYet
  }

  /** A poll within the window finds the site, and all before it are told to wait. */
  ghost predicate FirstReady(polls: nat -> PollReply, k: nat) {
    exists m: nat :: ReadyAt(polls, k, m)
  }

  lemma PollStep(polls: nat -> PollReply, k: nat)
    requires k < POLL_ATTEMPTS
    ensures Poll(polls, k) == match polls(k)
                              case Ready(id) => (Some(id), 1)
                              case Denied => (None, 1)
                              case NotYet => (Poll(polls, k + 1).0, Poll(polls, k + 1).1 + 1)
    ensures Poll(polls, POLL_ATTEMPTS) == (None, 0)
  {
  }

  lemma {:induction false} PollFinds(polls: nat -> PollReply, k: nat)
    requires k <= POLL_ATTEMPTS
    ensures Poll(polls, k).0.Some? <==> FirstReady(polls, k)
    decreases POLL_ATTEMPTS - k
  {
    if k < POLL_ATTEMPTS {
      if polls(k) == NotYet {
        var next := k + 1;
        PollFinds(polls, next);
        if m: nat :| ReadyAt(polls, k, m) { assert ReadyAt(polls, next, m); }
        if m: nat :| ReadyAt(polls, next, m) { assert ReadyAt(polls, k, m); }
      } else if polls(k).Ready? {
        assert ReadyAt(polls, k, k);
      } else {
        assert forall m: nat :: !ReadyAt(polls, k, m);
      }
    }
  }

  /** The book once the group of the drive is known to be there, or after the POST raised. */
  function WithGroup(b: Book, d: DriveId, post: PostReply): Book {
    if d in b.groups then b
    else
      match post
      case Created(g) =>
        b.(groups := b.groups[d := g], created := b.created + multiset{d}, requests := b.requests + 1)
      case Lost(_) => b.(created := b.created + multiset{d}, requests := b.requests + 1)
      case Refused => b.(requests := b.requests + 1)
  }

  function Ensure(b: Book, d: DriveId, r: Replies): (Book, Option<Site>) {
    if d in b.sites then (b, Some(b.sites[d]))
    else
      var b1 := WithGroup(b, d, r.post);
      if d !in b1.groups then (b1, None)
      else
        var (found, n) := Poll(r.polls, 0);
        var b2 := b1.(requests := b1.requests + n);
        if found.None? then (b2, None)
        else
          var b3 := b2.(requests := b2.requests + 1);
          if r.library.None? then (b3, None)
          else
            var site := Site(found.value, r.library.value);
            (b3.(sites := b3.sites[d := site]), Some(site))
  }

  class Provisioner {
    var sites: map<DriveId, Site>
    var groups: map<DriveId, GroupId>
    ghost var created: multiset<DriveId>
    ghost var requests: nat

    ghost function Abs(): Book
      reads this
    {
      Book(sites, groups, created, requests)
    }

    method PollGroupSite(polls: nat -> PollReply) returns (site: Option<string>)
      modifies this`requests
      ensures (site, requests - old(requests)) == Poll(polls, 0)
    {
      hide Poll;
      PollStep(polls, 0);
      for attempt := 0 to POLL_ATTEMPTS
        invariant requests == old(requests) + attempt
        invariant Poll(polls, 0) == (Poll(polls, attempt).0, attempt + Poll(polls, attempt).1)
      {
        PollStep(polls, attempt);
        requests := requests + 1;
        match polls(attempt)
        case Ready(id) =>
          return Some(id);
        case Denied =>
          return None;
        case NotYet =>
      }
      return None;
    }

    /** None when the call raises. */
    method EnsureSite(d: DriveId, r: Replies) returns (site: Option<Site>)
      modifies this
      ensures (Abs(), site) == Ensure(old(Abs()), d, r)
    {
      hide Poll;
      if d in sites {
        return Some(sites[d]);
      }
      if d !in groups {
        requests := requests + 1;
        match r.post
        case Refused =>
          return None;
        case Lost(_) =>
          created := created + multiset{d};
          return None;
        case Created(g) =>
          created, groups := created + multiset{d}, groups[d := g];
      }
      var found := PollGroupSite(r.polls);
      if found.None? {
        return None;
      }
      requests := requests + 1;
      if r.library.None? {
        return None;
      }
      site := Some(Site(found.value, r.library.value));
      sites := sites[d := site.value];
    }
  }

  /** A call succeeds exactly when the site is recorded, or the group is or can be made, one of the
      30 polls finds its site with nothing but "not yet" before, and the library resolves. */
  lemma SucceedsWhen(b: Book, d: DriveId, r: Replies)
    ensures Ensure(b, d, r).1.Some? <==>
              d in b.sites
              || ((d in b.groups || r.post.Created?) && FirstReady(r.polls, 0) && r.library.Some?)
    ensures Ensure(b, d, r).0.requests <= b.requests + POLL_ATTEMPTS + 2
  {
    PollFinds(r.polls, 0);
    hide Poll, FirstReady;
  }

  /** The polls that are made: up to the first decisive answer, or all. */
  ghost predicate PollsMade(polls: nat -> PollReply, n: nat) {
    0 < n <= POLL_ATTEMPTS
    && (forall j: nat :: j < n - 1 ==> polls(j) == NotYet)
    && (polls(n - 1) == NotYet ==> n == POLL_ATTEMPTS)
  }

  lemma {:induction false} PollCounts(polls: nat -> PollReply, k: nat)
    requires k < POLL_ATTEMPTS && forall j: nat :: j < k ==> polls(j) == NotYet
    ensures PollsMade(polls, k + Poll(polls, k).1)
    ensures Poll(polls, k).0 == match polls(k + Poll(polls, k).1 - 1) case Ready(id) => Some(id) case _ => None
    decreases POLL_ATTEMPTS - k
  {
    if polls(k) == NotYet && k + 1 < POLL_ATTEMPTS { PollCounts(polls, k + 1); }
    if polls(k) == NotYet && k + 1 == POLL_ATTEMPTS { assert Poll(polls, k + 1) == (None, 0); }
  }

  /** Main result. What a call for an unrecorded drive returns and records, and nothing else: the site that the
      first decisive poll found, with the library that resolved, under the group that was recorded or
      was created and recorded by this call; and how many requests it takes. */
  lemma SiteIs(b: Book, d: DriveId, r: Replies) returns (n: nat)
    requires d !in b.sites
    ensures PollsMade(r.polls, n)
    ensures var (b', site) := Ensure(b, d, r);
            var known, answer := d in b.groups || r.post.Created?, r.polls(n - 1);
            && site == (if known && answer.Ready? && r.library.Some? then Some(Site(answer.siteId, r.library.value)) else None)
            && b'.sites == (if site.Some? then b.sites[d := site.value] else b.sites)
            && b'.groups == (if d !in b.groups && r.post.Created? then b.groups[d := r.post.group] else b.groups)
            && b'.created == (if d !in b.groups && !r.post.Refused? then b.created + multiset{d} else b.created)
            && b'.requests == b.requests + (if d in b.groups then 0 else 1) + (if known then n else 0)
                              + if known && answer.Ready? then 1 else 0
  {
    PollCounts(r.polls, 0);
    n := Poll(r.polls, 0).1;
    hide Poll, PollsMade;
  }

  // ----- over any calls --------------------------------------------------------------------

  datatype Visit = Visit(drive: DriveId, replies: Replies)

  function After(b: Book, visits: seq<Visit>): Book {
    if visits == [] then b
    else
      var v := visits[|visits| - 1];
      Ensure(After(b, visits[..|visits| - 1]), v.drive, v.replies).0
  }

  function Recorded(b: Book, d: DriveId): nat {
    if d in b.groups then 1 else 0
  }

  /** The call creates a group for d that it does not live to record. */
  predicate Loses(b: Book, v: Visit, d: DriveId) {
    v.drive == d && d !in b.sites && d !in b.groups && v.replies.post.Lost?
  }

  function Losses(b: Book, visits: seq<Visit>, d: DriveId): nat {
    if visits == [] then 0
    else
      var init := visits[..|visits| - 1];
      Losses(b, init, d) + if Loses(After(b, init), visits[|visits| - 1], d) then 1 else 0
  }

  lemma GroupStep(b: Book, v: Visit, d: DriveId)
    ensures var b' := WithGroup(b, v.drive, v.replies.post);
            && b'.created[d] + Recorded(b, d) == b.created[d] + Recorded(b', d)
                 + (if d == v.drive && d !in b.groups && v.replies.post.Lost? then 1 else 0)
            && (d in b.groups ==> d in b'.groups && b'.groups[d] == b.groups[d])
            && b'.sites == b.sites
  {
  }

  lemma EnsureStep(b: Book, v: Visit, d: DriveId)
    ensures var b' := Ensure(b, v.drive, v.replies).0;
            && b'.created[d] + Recorded(b, d)
                 == b.created[d] + Recorded(b', d) + (if Loses(b, v, d) then 1 else 0)
            && (d in b.sites ==> d in b'.sites && b'.sites[d] == b.sites[d])
            && (d in b.groups ==> d in b'.groups && b'.groups[d] == b.groups[d])
  {
    GroupStep(b, v, d);
    hide Poll, WithGroup;
  }

  /** Main result. Over any calls, for any drives and with any failures, the groups created for a
      drive are the one recorded and those a call created but did not live to record: at most one,
      unless a call is cut off between the two. The recorded group never changes. */
  lemma {:induction false} OneGroup(visits: seq<Visit>, d: DriveId)
    ensures var b0 := Book(map[], map[], multiset{}, 0);
            After(b0, visits).created[d] == Recorded(After(b0, visits), d) + Losses(b0, visits, d)
  {
    var b0 := Book(map[], map[], multiset{}, 0);
    if visits != [] {
      var init, v := visits[..|visits| - 1], visits[|visits| - 1];
      hide Ensure, Recorded;
      OneGroup(init, d);
      EnsureStep(After(b0, init), v, d);
    }
  }

  lemma {:induction false} SitesStay(b: Book, visits: seq<Visit>, d: DriveId)
    requires d in b.sites
    ensures d in After(b, visits).sites && After(b, visits).sites[d] == b.sites[d]
  {
    if visits != [] {
      hide Ensure;
      SitesStay(b, visits[..|visits| - 1], d);
      EnsureStep(After(b, visits[..|visits| - 1]), visits[|visits| - 1], d);
    }
  }

  /** Once a call has succeeded for a drive, every later call returns the same site and library,
      whatever Graph would answer, and asks nothing of it. */
  lemma {:induction false} SameSiteForever(b: Book, d: DriveId, r: Replies, visits: seq<Visit>, r': Replies)
    requires Ensure(b, d, r).1.Some?
    ensures var later := After(Ensure(b, d, r).0, visits);
            Ensure(later, d, r') == (later, Ensure(b, d, r).1)
  {
    assert d in Ensure(b, d, r).0.sites && Ensure(b, d, r).1 == Some(Ensure(b, d, r).0.sites[d]) by { hide Poll; }
    SitesStay(Ensure(b, d, r).0, visits, d);
    hide After, Poll;
  }
}
