/** The IMAP source (connectors/imap.py): per-folder UIDVALIDITY/UIDNEXT cursors against a server
    that delivers, expunges and renumbers while it is read (RFC 3501, sections 2.3.1.1 and 6.4.8). */
module Imap {
  import opened Wrappers
  import opened State

  /** A mailbox: its UIDVALIDITY, its UIDNEXT and the UIDs of its messages. A deleted one is no longer
      listed; the server only remembers which UIDVALIDITY its name had. */
  datatype Mailbox = Mailbox(validity: nat, uidNext: nat, live: set<nat>, listed: bool)

  type Mailboxes = map<string, Mailbox>

  predicate ValidMailbox(m: Mailbox) {
    m.validity > 0 && m.uidNext > 0 && (forall uid <- m.live :: 0 < uid < m.uidNext) && (!m.listed ==> m.live == {})
  }

  /** What a server may do to a mailbox: deliver under new UIDs, expunge, delete it, and renumber or
      recreate it under a greater UIDVALIDITY. */
  predicate MailboxLater(m: Mailbox, m': Mailbox) {
    || m'.validity > m.validity
    || (m'.validity == m.validity && m'.uidNext >= m.uidNext && (m'.listed ==> m.listed)
        && forall uid <- m'.live :: uid < m.uidNext ==> uid in m.live)
  }

  predicate ValidServer(s: Mailboxes) {
    forall name <- s :: ValidMailbox(s[name])
  }

  predicate Later(s: Mailboxes, s': Mailboxes) {
    forall name <- s :: name in s' && MailboxLater(s[name], s'[name])
  }

  lemma LaterTrans(a: Mailboxes, b: Mailboxes, c: Mailboxes)
    requires Later(a, b) && Later(b, c)
    ensures Later(a, c)
  {
    forall name <- a ensures name in c && MailboxLater(a[name], c[name]) {
      assert MailboxLater(a[name], b[name]) && MailboxLater(b[name], c[name]);
    }
  }

  datatype FolderCursor = FolderCursor(uidValidity: nat, uidNext: nat)

  type Cursor = map<string, FolderCursor>

  // ----- message ids -----------------------------------------------------------------------

  function Digits(n: nat): string {
    if n < 10 then ["0123456789"[n]] else Digits(n / 10) + ["0123456789"[n % 10]]
  }

  /** folder:uidvalidity:uid. */
  function MessageId(folder: string, validity: nat, uid: nat): SourceId {
    folder + ":" + Digits(validity) + ":" + Digits(uid)
  }

  lemma DigitInjective(a: nat, b: nat)
    requires a < 10 && b < 10 && "0123456789"[a] == "0123456789"[b]
    ensures a == b
  {
  }

  lemma {:induction false} DigitsNoColon(n: nat)
    ensures ':' !in Digits(n) && Digits(n) != []
  {
    if n >= 10 { DigitsNoColon(n / 10); }
  }

  lemma {:induction false} DigitsInjective(a: nat, b: nat)
    requires Digits(a) == Digits(b)
    ensures a == b
  {
    DigitsNoColon(a / 10);
    DigitsNoColon(b / 10);
    var x, y := Digits(a), Digits(b);
    assert x[|x| - 1] == "0123456789"[a % 10] && y[|y| - 1] == "0123456789"[b % 10];
    DigitInjective(a % 10, b % 10);
    if a >= 10 {
      assert x[..|x| - 1] == Digits(a / 10);
      assert |y| > 1;
      assert y[..|y| - 1] == Digits(b / 10);
      DigitsInjective(a / 10, b / 10);
    }
  }

  lemma LastColon(a: string, x: string)
    requires ':' !in x
    ensures var s := a + ":" + x;
            s[|a|] == ':' && forall i :: |a| < i < |s| ==> s[i] != ':'
  {
  }

  /** The last colon splits a string in one way. */
  lemma SplitAtLastColon(a: string, x: string, b: string, y: string)
    requires a + ":" + x == b + ":" + y && ':' !in x && ':' !in y
    ensures a == b && x == y
  {
    var s := a + ":" + x;
    LastColon(a, x);
    LastColon(b, y);
    assert |a| == |b|;
    assert a == s[..|a|] == b && x == s[|a| + 1..] == y;
  }

  /** Two messages never share an id, whatever the folder names contain. */
  lemma MessageIdInjective(f: string, v: nat, u: nat, f': string, v': nat, u': nat)
    requires MessageId(f, v, u) == MessageId(f', v', u')
    ensures f == f' && v == v' && u == u'
  {
    DigitsNoColon(v);
    DigitsNoColon(u);
    DigitsNoColon(v');
    DigitsNoColon(u');
    SplitAtLastColon(f + ":" + Digits(v), Digits(u), f' + ":" + Digits(v'), Digits(u'));
    SplitAtLastColon(f, Digits(v), f', Digits(v'));
    DigitsInjective(u, u');
    DigitsInjective(v, v');
  }

  // ----- one folder ------------------------------------------------------------------------

  predicate IsMax(uids: set<nat>, uid: nat) {
    uid in uids && forall other <- uids :: other <= uid
  }

  /** The answer to UID SEARCH UID start:* : `*` is the highest UID in use and the bounds of a range
      may come in either order, so that the highest UID is always in the range. */
  function InRange(live: set<nat>, start: nat): set<nat> {
    set uid <- live | uid >= start || IsMax(live, uid)
  }

  /** The cursor entry for a STATUS reply; a missing number or a failed command gives 0 or 1. */
  function EntryOf(validity: Option<nat>, uidNext: Option<nat>): FolderCursor {
    FolderCursor(if validity.Some? then validity.value else 0, if uidNext.Some? then uidNext.value else 1)
  }

  function StartUid(prev: Option<FolderCursor>, entry: FolderCursor): nat {
    if prev.Some? && prev.value.uidValidity == entry.uidValidity then prev.value.uidNext else 1
  }

  /** The folder has nothing new, so that it is not searched. */
  predicate UpToDate(prev: Option<FolderCursor>, entry: FolderCursor) {
    prev.Some? && prev.value.uidValidity == entry.uidValidity && prev.value.uidNext >= entry.uidNext
  }

  function From(uids: seq<nat>, start: nat): seq<nat> {
    if uids == [] then []
    else
      var rest, uid := From(uids[..|uids| - 1], start), uids[|uids| - 1];
      if uid < start then rest else rest + [uid]
  }

  /** The UIDs that a folder yields, given its previous cursor entry, its new one and the SEARCH
      reply (None when it is not OK). */
  function Yielded(prev: Option<FolderCursor>, entry: FolderCursor, found: Option<seq<nat>>): seq<nat> {
    if UpToDate(prev, entry) || found.None? then [] else From(found.value, StartUid(prev, entry))
  }

  lemma {:induction false} FromKeeps(uids: seq<nat>, start: nat)
    ensures forall uid: nat :: uid in From(uids, start) <==> uid in uids && uid >= start
  {
    if uids != [] {
      var init, last := uids[..|uids| - 1], uids[|uids| - 1];
      assert uids == init + [last];
      FromKeeps(init, start);
    }
  }

  /** In their order. */
  lemma {:induction false} FromInOrder(a: seq<nat>, b: seq<nat>, start: nat)
    ensures From(a + b, start) == From(a, start) + From(b, start)
    ensures forall uid: nat :: From([uid], start) == if uid < start then [] else [uid]
  {
    forall uid: nat ensures From([uid], start) == if uid < start then [] else [uid] {
      assert [uid][..0] == [] && From([], start) == [];
    }
    if b == [] {
      assert a + b == a;
    } else {
      var init, last := b[..|b| - 1], b[|b| - 1];
      assert (a + b)[..|a + b| - 1] == a + init && (a + b)[|a + b| - 1] == last;
      FromInOrder(a, init, start);
    }
  }

  /** The entry is what STATUS answered; a missing number counts as none assigned yet. */
  lemma StatusEntry(validity: nat, uidNext: nat)
    ensures EntryOf(Some(validity), Some(uidNext)) == FolderCursor(validity, uidNext)
    ensures EntryOf(None, Some(uidNext)) == FolderCursor(0, uidNext) && EntryOf(Some(validity), None) == FolderCursor(validity, 1)
    ensures EntryOf(None, None) == FolderCursor(0, 1)
  {
  }

  /** Already enumerated by the run that stored the previous cursor. */
  predicate Before(prev: Option<FolderCursor>, entry: FolderCursor, uid: nat) {
    prev.Some? && prev.value.uidValidity == entry.uidValidity && uid < prev.value.uidNext
  }

  /** Every message below the new entry is yielded now or was enumerated before. */
  ghost predicate Covers(m: Mailbox, prev: Option<FolderCursor>, entry: FolderCursor, yielded: set<nat>) {
    m.validity == entry.uidValidity ==>
      forall uid <- m.live :: uid < entry.uidNext ==> uid in yielded || Before(prev, entry, uid)
  }

  /** What later happens to the mailbox does not uncover a message. */
  lemma CoversLater(m: Mailbox, m': Mailbox, prev: Option<FolderCursor>, entry: FolderCursor, yielded: set<nat>)
    requires MailboxLater(m, m') && Covers(m, prev, entry, yielded)
    requires m.validity == entry.uidValidity ==> entry.uidNext <= m.uidNext
    requires entry.uidValidity <= m.validity
    ensures Covers(m', prev, entry, yielded)
  {
  }

  /** A folder whose cursor entry was read at `m` and which was searched at `m'` is covered, and only
      by UIDs not enumerated before, if and only if the search answered or there was nothing to
      find: a failed SEARCH loses exactly the unseen messages below the new entry. */
  lemma SearchCovers(m: Mailbox, m': Mailbox, prev: Option<FolderCursor>, found: Option<seq<nat>>)
    requires ValidMailbox(m') && MailboxLater(m, m')
    requires found.Some? ==>
               forall uid: nat :: uid in found.value <==> uid in InRange(m'.live, StartUid(prev, FolderCursor(m.validity, m.uidNext)))
    ensures var entry := FolderCursor(m.validity, m.uidNext);
            var yielded := Yielded(prev, entry, found);
            && (Covers(m', prev, entry, set uid <- yielded) <==>
                  found.Some? || UpToDate(prev, entry) || Covers(m', prev, entry, {}))
            && (forall uid <- yielded :: !Before(prev, entry, uid))
  {
    if found.Some? { FromKeeps(found.value, StartUid(prev, FolderCursor(m.validity, m.uidNext))); }
  }

  /** A STATUS that fails or omits a number covers nothing wrongly: its entry is below every message. */
  lemma BadStatusCovers(m: Mailbox, prev: Option<FolderCursor>, validity: Option<nat>, uidNext: Option<nat>)
    requires ValidMailbox(m) && (validity.None? || uidNext.None?)
    ensures Covers(m, prev, EntryOf(validity, uidNext), {})
  {
  }
}
