/** Accounting of a files pass, for any parent graph: cycles, self-parents and dangling parents
    included. Each item gets exactly one final outcome, the returned failures are the rows left
    `failed`, and the number of _process_file calls is bounded. */
module FilesAccounting {
  import opened Wrappers
  import opened State
  import opened FilesPass

  /** No two items of the batch have the same source id. */
  predicate Distinct(batch: seq<SourceFile>) {
    batch != [] ==>
      var n := |batch| - 1;
      Distinct(batch[..n]) && batch[n].sourceId !in Ids(batch[..n])
  }

  predicate HasStatus(rows: Rows, id: SourceId, status: Status) {
    id in rows && rows[id].status == status
  }

  predicate Ended(rows: Rows, id: SourceId) {
    id in rows && !rows[id].status.Pending?
  }

  function FailedIn(rows: Rows, ids: set<SourceId>): set<SourceId> {
    set id <- ids | HasStatus(rows, id, Failed)
  }

  ghost predicate SameRow(rows: Rows, rows': Rows, id: SourceId) {
    (id in rows <==> id in rows') && (id in rows ==> rows[id] == rows'[id])
  }

  ghost predicate SameOutside(rows: Rows, rows': Rows, ids: set<SourceId>) {
    forall id: SourceId :: id !in ids ==> SameRow(rows, rows', id)
  }

  /** A recorded hash belongs to a finished item, as every caller of upsert_item leaves it. */
  ghost predicate HashMeansDone(rows: Rows) {
    forall id <- rows :: rows[id].sourceHash.Some? ==> rows[id].status.Done?
  }

  /** From `s` to `s'`, exactly the items `closed` were settled, each once, and `failures` of them failed. */
  ghost predicate Settles(s: Pass, s': Pass, closed: set<SourceId>, failures: nat) {
    && HashMeansDone(s'.rows)
    && (forall id <- closed :: Ended(s'.rows, id))
    && SameOutside(s.rows, s'.rows, closed)
    && failures == |FailedIn(s'.rows, closed)|
    && s'.settled == s.settled + multiset(closed)
  }

  /** What one attempt does to the rows: nothing, or a final row for the item. */
  lemma AttemptRow(env: Env, s: Pass, f: SourceFile, defer: bool)
    requires HashMeansDone(s.rows)
    ensures var (s', o) := Attempt(env, s, f, defer);
            && (s'.rows == s.rows
                || (f.sourceId in s'.rows && s'.rows == s.rows[f.sourceId := s'.rows[f.sourceId]]
                    && (s'.rows[f.sourceId].sourceHash.Some? ==> s'.rows[f.sourceId].status.Done?)))
            && s'.calls == s.calls && s'.settled == s.settled
            && (o.Defer? ==> defer && s' == s)
            && (!o.Defer? ==> Ended(s'.rows, f.sourceId))
            && (o.Fail? <==> !o.Defer? && HasStatus(s'.rows, f.sourceId, Failed))
  {
    hide UploadTarget, UploadRaises, CreateRaises;
  }

  lemma ProcessSettles(env: Env, s: Pass, f: SourceFile, defer: bool)
    requires HashMeansDone(s.rows)
    ensures var (s', o) := Process(env, s, f, defer);
            && (o.Defer? ==> defer && s' == s.(calls := s.calls + 1))
            && (!o.Defer? ==> Settles(s, s', {f.sourceId}, if o.Fail? then 1 else 0))
  {
    AttemptRow(env, s, f, defer);
    hide Attempt;
    var (s', o) := Process(env, s, f, defer);
    assert FailedIn(s'.rows, {f.sourceId}) == if HasStatus(s'.rows, f.sourceId, Failed) then {f.sourceId} else {};
  }

  lemma ProcessDefers(env: Env, s: Pass, f: SourceFile, defer: bool)
    ensures Process(env, s, f, defer).0.calls == s.calls + 1
    ensures Process(env, s, f, defer).1.Defer? ==> defer
  {
  }

  lemma FailedBefore(rows: Rows, rows': Rows, a: set<SourceId>, b: set<SourceId>)
    requires SameOutside(rows, rows', b) && a !! b
    ensures FailedIn(rows, a) == FailedIn(rows', a) && forall id <- a :: Ended(rows, id) ==> Ended(rows', id)
  {
    forall id <- a ensures SameRow(rows, rows', id) {}
  }

  lemma FailedBoth(rows: Rows, a: set<SourceId>, b: set<SourceId>)
    requires a !! b
    ensures |FailedIn(rows, a + b)| == |FailedIn(rows, a)| + |FailedIn(rows, b)|
  {
    assert FailedIn(rows, a + b) == FailedIn(rows, a) + FailedIn(rows, b);
  }

  lemma SettlesTrans(s0: Pass, s1: Pass, s2: Pass, a: set<SourceId>, b: set<SourceId>, m: nat, n: nat)
    requires Settles(s0, s1, a, m) && Settles(s1, s2, b, n) && a !! b
    ensures Settles(s0, s2, a + b, m + n)
  {
    FailedBefore(s1.rows, s2.rows, a, b);
    FailedBoth(s2.rows, a, b);
    hide FailedIn, Ended, HashMeansDone;
    assert multiset(a + b) == multiset(a) + multiset(b);
  }

  lemma SettlesNothing(s: Pass)
    requires HashMeansDone(s.rows)
    ensures Settles(s, s, {}, 0)
  {
    assert FailedIn(s.rows, {}) == {};
  }

  lemma SettlesCall(s: Pass, s': Pass, closed: set<SourceId>, failures: nat)
    requires Settles(s, s', closed, failures)
    ensures Settles(s, s'.(calls := s'.calls + 1), closed, failures)
  {
  }

  lemma Snoc(batch: seq<SourceFile>, f: SourceFile)
    ensures Ids(batch + [f]) == Ids(batch) + {f.sourceId}
    ensures Distinct(batch + [f]) <==> Distinct(batch) && f.sourceId !in Ids(batch)
  {
    assert (batch + [f])[..|batch|] == batch;
  }

  /** What a sweep or a round over `batch` keeps: it settled what is not still deferred. */
  ghost predicate Accounts(s: Pass, batch: seq<SourceFile>, r: Sweep) {
    && Distinct(r.still) && Ids(r.still) <= Ids(batch)
    && Settles(s, r.pass, Ids(batch) - Ids(r.still), r.failures)
  }

  lemma RecordAccounts(s: Pass, batch: seq<SourceFile>, r: Sweep, f: SourceFile, result: (Pass, Outcome))
    requires Accounts(s, batch, r) && f.sourceId !in Ids(batch)
    requires result.1.Defer? ==> result.0 == r.pass.(calls := r.pass.calls + 1)
    requires !result.1.Defer? ==> Settles(r.pass, result.0, {f.sourceId}, if result.1.Fail? then 1 else 0)
    ensures Accounts(s, batch + [f], Record(r, f, result))
  {
    var closed := Ids(batch) - Ids(r.still);
    Snoc(batch, f);
    hide Settles, Ids, Distinct;
    if result.1.Defer? {
      Snoc(r.still, f);
      SettlesCall(s, r.pass, closed, r.failures);
      assert closed == Ids(batch + [f]) - Ids(r.still + [f]);
    } else {
      SettlesTrans(s, r.pass, result.0, closed, {f.sourceId}, r.failures, if result.1.Fail? then 1 else 0);
      assert closed + {f.sourceId} == Ids(batch + [f]) - Ids(r.still);
    }
  }

  lemma RunBatchStep(env: Env, s: Pass, batch: seq<SourceFile>, f: SourceFile, defer: bool)
    ensures var before := RunBatch(env, s, batch, defer);
            RunBatch(env, s, batch + [f], defer) == Record(before, f, Process(env, before.pass, f, defer))
  {
    hide Process, Record;
    assert (batch + [f])[..|batch|] == batch;
  }

  lemma {:induction false} SweepAccounts(env: Env, s: Pass, batch: seq<SourceFile>, defer: bool)
    requires Distinct(batch) && HashMeansDone(s.rows)
    ensures Accounts(s, batch, RunBatch(env, s, batch, defer))
  {
    if batch == [] {
      SettlesNothing(s);
    } else {
      var init, f := batch[..|batch| - 1], batch[|batch| - 1];
      assert batch == init + [f];
      RunBatchStep(env, s, init, f, defer);
      hide RunBatch, Process, Record, Ids, SameOutside, FailedIn;
      SweepAccounts(env, s, init, defer);
      var before := RunBatch(env, s, init, defer);
      ProcessSettles(env, before.pass, f, defer);
      RecordAccounts(s, init, before, f, Process(env, before.pass, f, defer));
    }
  }

  lemma {:induction false} SweepCounts(env: Env, s: Pass, batch: seq<SourceFile>, defer: bool)
    ensures var r := RunBatch(env, s, batch, defer);
            && r.pass.calls == s.calls + |batch|
            && (!defer ==> r.still == [])
            && (|r.still| == |batch| ==> r.still == batch)
  {
    hide Process;
    if batch != [] {
      var n := |batch| - 1;
      SweepCounts(env, s, batch[..n], defer);
      ProcessDefers(env, RunBatch(env, s, batch[..n], defer).pass, batch[n], defer);
    }
  }

  // ----- the deferral loop -----------------------------------------------------------------

  lemma {:induction false} Sublists(batch: seq<SourceFile>, pending: set<SourceId>, ids: set<SourceId>)
    requires Distinct(batch)
    ensures Distinct(ParentNotIn(batch, pending)) && Distinct(Without(batch, ids))
    ensures Ids(ParentNotIn(batch, pending)) <= ids ==>
              |Without(batch, ids)| + |ParentNotIn(batch, pending)| <= |batch|
  {
    if batch != [] {
      var n := |batch| - 1;
      Sublists(batch[..n], pending, ids);
      Snoc(ParentNotIn(batch[..n], pending), batch[n]);
      Snoc(Without(batch[..n], ids), batch[n]);
    }
  }

  lemma OrphansLeave(remaining: seq<SourceFile>)
    requires Distinct(remaining)
    ensures Distinct(Orphans(remaining)) && Distinct(Without(remaining, Ids(Orphans(remaining))))
    ensures |Without(remaining, Ids(Orphans(remaining)))| + |Orphans(remaining)| <= |remaining|
  {
    Sublists(remaining, Ids(remaining), Ids(Orphans(remaining)));
    NoIds(Without(remaining, Ids(remaining)));
  }

  lemma NoIds(batch: seq<SourceFile>)
    ensures Ids(batch) == {} <==> batch == []
  {
    if batch != [] {
      assert batch[|batch| - 1].sourceId in Ids(batch);
    }
  }

  lemma JoinSweeps(s: Pass, deferred: seq<SourceFile>, sweep: Sweep, orphans: seq<SourceFile>, second: Sweep)
    requires Accounts(s, deferred, sweep) && sweep.still == deferred
    requires Accounts(sweep.pass, orphans, second) && second.still == []
    requires Ids(orphans) <= Ids(deferred) && Distinct(Without(deferred, Ids(orphans)))
    ensures Accounts(s, deferred, Sweep(second.pass, Without(deferred, Ids(orphans)), sweep.failures + second.failures))
  {
    hide Settles, Ids, Distinct;
    assert Ids(deferred) - Ids(sweep.still) == {};
    assert Ids([]) == {} by { NoIds([]); }
    assert Ids(orphans) - Ids(second.still) == Ids(orphans);
    SettlesTrans(s, sweep.pass, second.pass, {}, Ids(orphans), sweep.failures, second.failures);
    assert {} + Ids(orphans) == Ids(deferred) - Ids(Without(deferred, Ids(orphans)));
  }

  lemma RoundAccounts(env: Env, s: Pass, deferred: seq<SourceFile>)
    requires Distinct(deferred) && deferred != [] && HashMeansDone(s.rows)
    ensures Accounts(s, deferred, OneRound(env, s, deferred))
    ensures OneRound(env, s, deferred).pass.calls
              <= s.calls + |deferred| + (|deferred| - |OneRound(env, s, deferred).still|)
  {
    hide RunBatch, SameOutside, FailedIn;
    SweepAccounts(env, s, deferred, true);
    SweepCounts(env, s, deferred, true);
    var sweep := RunBatch(env, s, deferred, true);
    if sweep.still == deferred {
      var orphans := Orphans(deferred);
      OrphansLeave(deferred);
      SweepAccounts(env, sweep.pass, orphans, false);
      SweepCounts(env, sweep.pass, orphans, false);
      JoinSweeps(s, deferred, sweep, orphans, RunBatch(env, sweep.pass, orphans, false));
    }
  }

  /** The most calls the deferral loop makes on n deferred items. */
  function MaxCalls(n: nat): nat {
    n * (n + 1) / 2 + n
  }

  lemma MaxCallsStep(k: nat, k': nat)
    requires k' < k
    ensures k + (k - k') + MaxCalls(k') <= MaxCalls(k)
  {
    assert k' * (k' + 1) <= k' * k <= (k - 1) * k;
    assert k * (k + 1) == (k - 1) * k + 2 * k;
  }

  /** What is settled first and then all that was still deferred, settles the whole batch. */
  lemma Finish(s: Pass, batch: seq<SourceFile>, r: Sweep, s': Pass, failures: nat)
    requires Accounts(s, batch, r) && Settles(r.pass, s', Ids(r.still), failures)
    ensures Settles(s, s', Ids(batch), r.failures + failures)
  {
    hide Settles, Ids, Distinct;
    var closed := Ids(batch) - Ids(r.still);
    SettlesTrans(s, r.pass, s', closed, Ids(r.still), r.failures, failures);
    assert closed + Ids(r.still) == Ids(batch);
  }

  lemma AccountsLeaves(s: Pass, batch: seq<SourceFile>, r: Sweep)
    requires Accounts(s, batch, r)
    ensures Distinct(r.still) && HashMeansDone(r.pass.rows)
  {
  }

  lemma RoundsStep(env: Env, s: Pass, deferred: seq<SourceFile>)
    requires deferred != []
    ensures var r := OneRound(env, s, deferred);
            var rest := Rounds(env, r.pass, r.still);
            Rounds(env, s, deferred) == (rest.0, r.failures + rest.1)
  {
    hide OneRound;
  }

  lemma {:induction false} RoundsSettle(env: Env, s: Pass, deferred: seq<SourceFile>)
    requires Distinct(deferred) && HashMeansDone(s.rows)
    ensures Settles(s, Rounds(env, s, deferred).0, Ids(deferred), Rounds(env, s, deferred).1)
    decreases |deferred|
  {
    if deferred == [] {
      SettlesNothing(s);
    } else {
      RoundsStep(env, s, deferred);
      hide OneRound, Rounds, Settles, Ids, Distinct, Accounts, HashMeansDone;
      var r := OneRound(env, s, deferred);
      RoundAccounts(env, s, deferred);
      AccountsLeaves(s, deferred, r);
      RoundsSettle(env, r.pass, r.still);
      var rest := Rounds(env, r.pass, r.still);
      Finish(s, deferred, r, rest.0, rest.1);
    }
  }

  lemma {:induction false} RoundsCalls(env: Env, s: Pass, deferred: seq<SourceFile>)
    requires Distinct(deferred) && HashMeansDone(s.rows)
    ensures Rounds(env, s, deferred).0.calls <= s.calls + MaxCalls(|deferred|)
    decreases |deferred|
  {
    hide OneRound, Accounts, Distinct, HashMeansDone;
    if deferred != [] {
      RoundsStep(env, s, deferred);
      hide Rounds, MaxCalls;
      var r := OneRound(env, s, deferred);
      RoundAccounts(env, s, deferred);
      AccountsLeaves(s, deferred, r);
      RoundsCalls(env, r.pass, r.still);
      MaxCallsStep(|deferred|, |r.still|);
    }
  }

  lemma MigrateSettles(env: Env, s: Pass, items: seq<SourceFile>)
    requires Distinct(items) && HashMeansDone(s.rows)
    ensures Settles(s, Migrate(env, s, items).0, Ids(items), Migrate(env, s, items).1)
    ensures Migrate(env, s, items).0.calls <= s.calls + |items| + MaxCalls(|items|)
  {
    hide MaxCalls, Ids, RunBatch, Rounds, FailedIn, SameOutside;
    SweepAccounts(env, s, items, true);
    SweepCounts(env, s, items, true);
    var first := RunBatch(env, s, items, true);
    RoundsSettle(env, first.pass, first.still);
    RoundsCalls(env, first.pass, first.still);
    var rest := Rounds(env, first.pass, first.still);
    Finish(s, items, first, rest.0, rest.1);
    if |first.still| < |items| { MaxCallsStep(|items|, |first.still|); }
  }

  /** Main result. Whatever the parent graph and the failures, a pass over items with distinct ids
      ends, makes at most n(n+1)/2 + 2n calls of _process_file, settles every item exactly once,
      and returns exactly the number of items whose row ends `failed`; the other rows of the batch
      end `done` or `skipped`, and the rows outside it are not touched. */
  lemma Accounting(env: Env, s: Pass, items: seq<SourceFile>)
    requires Distinct(items) && HashMeansDone(s.rows)
    ensures var (s', failures) := Migrate(env, s, items);
            && failures == |FailedIn(s'.rows, Ids(items))|
            && (forall id <- Ids(items) :: Ended(s'.rows, id))
            && SameOutside(s.rows, s'.rows, Ids(items))
            && s'.settled == s.settled + multiset(Ids(items))
            && HashMeansDone(s'.rows)
            && s'.calls <= s.calls + |items| + MaxCalls(|items|)
  {
    hide Migrate, MaxCalls, Ids, FailedIn, SameOutside;
    MigrateSettles(env, s, items);
  }
}
