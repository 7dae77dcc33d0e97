/** Whole runs over a calendar (workloads/calendar_job.py): a pass, ended or died, is a sequence of the
    steps that CalendarPass reasons about, so what every such sequence keeps, every run keeps. */
module CalendarRuns {
  import opened Wrappers
  import opened State
  import opened CalendarPass

  /** One pass over a calendar: its mode, what is enumerated, and whether the enumeration raised. */
  datatype Run = Run(mode: Mode, feed: seq<Item>, broken: bool)

  function Pass(w: World, run: Run): Progress {
    RunPass(run.mode, w, run.feed, run.broken)
  }

  function Runs(w: World, runs: seq<Run>): World {
    if runs == [] then w else Pass(Runs(w, runs[..|runs| - 1]), runs[|runs| - 1]).world
  }

  /** The actions treat the items of the feed, and apply only occurrences. */
  ghost predicate ActsOn(actions: seq<Action>, mode: Mode, feed: seq<Item>) {
    forall a <- actions :: a.item in feed && (a.Main? ==> a.mode == mode) && (a.Apply? ==> a.item.event.master.Some?)
  }

  lemma AfterStep(w: World, actions: seq<Action>, a: Action, id: SourceId)
    ensures After(w, actions + [a]) == Act(After(w, actions), a)
    ensures TornIn(w, actions + [a], id)
              == TornIn(w, actions, id) + if a.Main? then TornCreate(a.mode, After(w, actions), a.item, id) else 0
  {
    hide Act, TornCreate;
    assert (actions + [a])[..|actions|] == actions;
  }

  lemma {:induction false} AfterConcat(w: World, a: seq<Action>, b: seq<Action>, id: SourceId)
    ensures After(w, a + b) == After(After(w, a), b)
    ensures TornIn(w, a + b, id) == TornIn(w, a, id) + TornIn(After(w, a), b, id)
  {
    if b == [] {
      assert a + b == a;
    } else {
      var init, last := b[..|b| - 1], b[|b| - 1];
      assert b == init + [last] && a + b == (a + init) + [last];
      hide Act, TornCreate;
      AfterConcat(w, a, init, id);
      AfterStep(w, a + init, last, id);
      AfterStep(After(w, a), init, last, id);
    }
  }

  // ----- a pass is a trace of steps --------------------------------------------------------

  /** The creations of `id` in the main loop that the process did not live to record. */
  function TornInMain(mode: Mode, w: World, feed: seq<Item>, id: SourceId): nat {
    if feed == [] then 0
    else
      var init := feed[..|feed| - 1];
      var p := MainLoop(mode, w, init);
      TornInMain(mode, w, init, id) + if p.died then 0 else TornCreate(mode, p.world, feed[|feed| - 1], id)
  }

  lemma MainStepOf(mode: Mode, w: World, feed: seq<Item>, item: Item, id: SourceId)
    ensures MainLoop(mode, w, feed + [item]) == AdvanceMain(mode, MainLoop(mode, w, feed), item)
    ensures TornInMain(mode, w, feed + [item], id)
              == TornInMain(mode, w, feed, id)
                 + if MainLoop(mode, w, feed).died then 0 else TornCreate(mode, MainLoop(mode, w, feed).world, item, id)
  {
    hide AdvanceMain, TornCreate;
    assert (feed + [item])[..|feed|] == feed;
  }

  ghost predicate MainTrace(mode: Mode, w: World, feed: seq<Item>, actions: seq<Action>, id: SourceId) {
    var p := MainLoop(mode, w, feed);
    && ActsOn(actions, mode, feed)
    && After(w, actions) == p.world && TornIn(w, actions, id) == TornInMain(mode, w, feed, id)
    && (forall item <- p.exceptions :: item in feed && item.event.master.Some?)
  }

  lemma MainTraceStep(mode: Mode, w: World, feed: seq<Item>, actions: seq<Action>, item: Item, id: SourceId)
    requires MainTrace(mode, w, feed, actions, id)
    ensures MainTrace(mode, w, feed + [item],
                      if MainLoop(mode, w, feed).died then actions else actions + [Main(mode, item)], id)
  {
    hide MainLoop, After, TornIn, TornInMain, TornCreate, ActsOn, AdvanceMain, Act;
    MainStepOf(mode, w, feed, item, id);
    AfterStep(w, actions, Main(mode, item), id);
    MoreActs(actions, mode, feed, item);
    assert Act(After(w, actions), Main(mode, item)) == MainStep(mode, After(w, actions), item).0 by { ActMain(After(w, actions), mode, item); }
    MoreExceptions(mode, MainLoop(mode, w, feed), feed, item);
  }

  lemma ActMain(w: World, mode: Mode, item: Item)
    ensures Act(w, Main(mode, item)) == MainStep(mode, w, item).0
  {
    hide MainStep;
  }

  lemma MoreExceptions(mode: Mode, p: Progress, feed: seq<Item>, item: Item)
    requires forall i <- p.exceptions :: i in feed && i.event.master.Some?
    ensures var p' := AdvanceMain(mode, p, item);
            && (forall i <- p'.exceptions :: i in feed + [item] && i.event.master.Some?)
            && p'.world == if p.died then p.world else MainStep(mode, p.world, item).0
  {
    assert MainStep(mode, p.world, item).1.Deferred? ==> item.event.master.Some?;
    hide MainStep;
    assert forall i <- feed :: i in feed + [item];
    assert item in feed + [item];
  }

  lemma MoreActs(actions: seq<Action>, mode: Mode, feed: seq<Item>, item: Item)
    requires ActsOn(actions, mode, feed)
    ensures ActsOn(actions, mode, feed + [item]) && ActsOn(actions + [Main(mode, item)], mode, feed + [item])
  {
    forall a <- actions + [Main(mode, item)] ensures a.item in feed + [item] {
      if a in actions { assert a.item in feed; }
    }
  }

  lemma {:induction false} MainIsTrace(mode: Mode, w: World, feed: seq<Item>, id: SourceId) returns (actions: seq<Action>)
    ensures MainTrace(mode, w, feed, actions, id)
  {
    actions := [];
    if feed != [] {
      hide MainTrace, MainLoop;
      var init, item := feed[..|feed| - 1], feed[|feed| - 1];
      assert feed == init + [item];
      var before := MainIsTrace(mode, w, init, id);
      MainTraceStep(mode, w, init, before, item, id);
      actions := if MainLoop(mode, w, init).died then before else before + [Main(mode, item)];
    }
  }

  lemma ApplyStepOf(p: Progress, items: seq<Item>, item: Item)
    ensures ApplyLoop(p, items + [item]) == AdvanceApply(ApplyLoop(p, items), item)
  {
    hide AdvanceApply;
    assert (items + [item])[..|items|] == items;
  }

  ghost predicate ApplyTrace(mode: Mode, p: Progress, items: seq<Item>, actions: seq<Action>, id: SourceId) {
    ActsOn(actions, mode, items) && After(p.world, actions) == ApplyLoop(p, items).world && TornIn(p.world, actions, id) == 0
  }

  lemma {:induction false} ApplyIsTrace(mode: Mode, p: Progress, items: seq<Item>, id: SourceId)
    returns (actions: seq<Action>)
    requires forall item <- items :: item.event.master.Some?
    ensures ApplyTrace(mode, p, items, actions, id)
  {
    actions := [];
    if items != [] {
      var init, item := items[..|items| - 1], items[|items| - 1];
      assert items == init + [item] && item in items;
      assert forall i <- init :: i in items;
      var before := ApplyIsTrace(mode, p, init, id);
      ApplyStepOf(p, init, item);
      AfterStep(p.world, before, Apply(item), id);
      actions := if ApplyLoop(p, init).died then before else before + [Apply(item)];
      hide ApplyLoop, After, TornIn, ApplyStep;
    }
  }

  lemma PassIsLoops(w: World, run: Run)
    ensures var main := MainLoop(run.mode, w, run.feed);
            Pass(w, run) == ApplyLoop(if run.broken then main.(failures := main.failures + 1) else main, main.exceptions)
  {
    hide MainLoop, ApplyLoop;
  }

  /** A pass, whole or cut off by the death of the process, runs steps on its own items, the main ones
      before the applied ones. */
  lemma PassIsTrace(w: World, run: Run, id: SourceId) returns (actions: seq<Action>)
    ensures ActsOn(actions, run.mode, run.feed) && After(w, actions) == Pass(w, run).world
    ensures TornIn(w, actions, id) == TornInMain(run.mode, w, run.feed, id)
  {
    PassIsLoops(w, run);
    hide MainLoop, ApplyLoop, Pass, After, TornIn, TornInMain;
    var main := MainLoop(run.mode, w, run.feed);
    var first := MainIsTrace(run.mode, w, run.feed, id);
    var p := if run.broken then main.(failures := main.failures + 1) else main;
    var second := ApplyIsTrace(run.mode, p, main.exceptions, id);
    AfterConcat(w, first, second, id);
    actions := first + second;
  }

  // ----- over any runs ---------------------------------------------------------------------

  function TornInRuns(w: World, runs: seq<Run>, id: SourceId): nat {
    if runs == [] then 0
    else
      var init, run := runs[..|runs| - 1], runs[|runs| - 1];
      TornInRuns(w, init, id) + TornInMain(run.mode, Runs(w, init), run.feed, id)
  }

  /** The connector gives `id` as an event of its own. */
  predicate OwnEvent(run: Run, id: SourceId) {
    forall item <- run.feed :: NoOccurrence(item, id)
  }

  lemma ProperActs(actions: seq<Action>, run: Run, id: SourceId)
    requires ActsOn(actions, run.mode, run.feed) && OwnEvent(run, id)
    ensures forall a <- actions :: Proper(a, id)
  {
  }

  lemma RunCreatesOnce(w: World, run: Run, id: SourceId, torn: nat)
    requires CreatedOnce(w, id, torn) && OwnEvent(run, id)
    ensures CreatedOnce(Pass(w, run).world, id, torn + TornInMain(run.mode, w, run.feed, id))
    ensures KeepsDest(w, Pass(w, run).world, id)
  {
    hide Pass, TornInMain, CreatedOnce, After, TornIn, KeepsDest;
    var actions := PassIsTrace(w, run, id);
    ProperActs(actions, run, id);
    CreatedAtMostOnce(w, actions, id, torn);
  }

  lemma RunsStep(w: World, runs: seq<Run>, run: Run, id: SourceId)
    ensures Runs(w, runs + [run]) == Pass(Runs(w, runs), run).world
    ensures TornInRuns(w, runs + [run], id) == TornInRuns(w, runs, id) + TornInMain(run.mode, Runs(w, runs), run.feed, id)
  {
    hide Pass, TornInMain;
    assert (runs + [run])[..|runs|] == runs;
  }

  lemma NoRuns(w: World, id: SourceId)
    ensures Runs(w, []) == w && TornInRuns(w, [], id) == 0
  {
  }

  /** Main result. Over any sequence of full and delta passes, with any failures and dying anywhere, an
      event that is not an occurrence is created at most once, plus once for every death between its
      creation and its row. */
  lemma {:induction false} RunsCreateOnce(w: World, runs: seq<Run>, id: SourceId, torn: nat)
    requires CreatedOnce(w, id, torn) && forall run <- runs :: OwnEvent(run, id)
    ensures CreatedOnce(Runs(w, runs), id, torn + TornInRuns(w, runs, id))
  {
    hide *;
    if runs == [] {
      NoRuns(w, id);
      return;
    }
    var init, run := runs[..|runs| - 1], runs[|runs| - 1];
    assert runs == init + [run] && run in runs;
    RunsStep(w, init, run, id);
    RunsCreateOnce(w, init, id, torn);
    RunCreatesOnce(Runs(w, init), run, id, torn + TornInRuns(w, init, id));
  }

  /** From any moment of any runs on, the destination id recorded for such an event stays. */
  lemma {:induction false} RunsKeepDest(w: World, runs: seq<Run>, id: SourceId, i: nat, j: nat)
    requires i <= j <= |runs| && forall run <- runs :: OwnEvent(run, id)
    ensures KeepsDest(Runs(w, runs[..i]), Runs(w, runs[..j]), id)
  {
    if i < j {
      var run := runs[j - 1];
      assert run in runs && runs[..j] == runs[..j - 1] + [run];
      RunsStep(w, runs[..j - 1], run, id);
      hide Pass, TornInMain, OwnEvent, Runs;
      RunsKeepDest(w, runs, id, i, j - 1);
      var now := Runs(w, runs[..j - 1]);
      RunCreatesOnce(now, run, id, now.created[id]);
    }
  }

  // ----- a removed event -------------------------------------------------------------------

  lemma StaysBuried(w: World, actions: seq<Action>, id: SourceId)
    requires OwnDests(w) && Buried(w, id) && DestOf(w.rows, id).value.Made?
    requires forall a <- actions :: Proper(a, id)
    ensures OwnDests(After(w, actions)) && Buried(After(w, actions), id) && DestOf(After(w, actions).rows, id) == DestOf(w.rows, id)
  {
    CancelledForGood(w, actions, id, Full, Item(Event(id, "", false, None, None, ""), Succeeds, false));
  }

  lemma BuriedFails(mode: Mode, w: World, item: Item)
    requires Buried(w, item.event.sourceId) && item.event.master.None? && !item.event.cancelled
    ensures MainStep(mode, w, item).1.Failure? || MainStep(mode, w, item).1.Death?
  {
  }

  lemma {:induction false} MainReinstates(mode: Mode, w: World, feed: seq<Item>, item: Item)
    requires var id := item.event.sourceId;
             OwnDests(w) && Buried(w, id) && DestOf(w.rows, id).value.Made? && OwnEvent(Run(mode, feed, false), id)
    requires item in feed && !item.event.cancelled
    ensures MainLoop(mode, w, feed).died || MainLoop(mode, w, feed).failures > 0
  {
    var id, init, last := item.event.sourceId, feed[..|feed| - 1], feed[|feed| - 1];
    assert feed == init + [last];
    MainStepOf(mode, w, init, last, id);
    assert NoOccurrence(item, id);
    hide MainLoop, OwnDests, Buried, DestOf;
    if item in init {
      MainReinstates(mode, w, init, item);
    } else {
      var actions := MainIsTrace(mode, w, init, id);
      ProperActs(actions, Run(mode, init, false), id);
      StaysBuried(w, actions, id);
      BuriedFails(mode, MainLoop(mode, w, init).world, last);
    }
    hide MainStep;
  }

  lemma {:induction false} ApplyKeepsFailures(p: Progress, items: seq<Item>)
    ensures (p.died ==> ApplyLoop(p, items).died) && ApplyLoop(p, items).failures >= p.failures
  {
    if items != [] {
      var init, item := items[..|items| - 1], items[|items| - 1];
      assert items == init + [item];
      hide ApplyStep;
      ApplyKeepsFailures(p, init);
      ApplyStepOf(p, init, item);
    }
  }

  /** Reinstating a removed event: no pass that meets it is clean, so that its cursor stays. */
  lemma ReinstatingFails(w: World, run: Run, item: Item)
    requires var id := item.event.sourceId;
             OwnDests(w) && Buried(w, id) && DestOf(w.rows, id).value.Made? && OwnEvent(run, id)
    requires item in run.feed && !item.event.cancelled
    ensures !Clean(Pass(w, run))
  {
    MainReinstates(run.mode, w, run.feed, item);
    PassIsLoops(w, run);
    hide MainLoop, ApplyLoop, Pass;
    var main := MainLoop(run.mode, w, run.feed);
    ApplyKeepsFailures(if run.broken then main.(failures := main.failures + 1) else main, main.exceptions);
  }

  /** Over any runs after a cancelled event was removed, its row keeps the dead id, and no later pass
      that meets the event again is clean. */
  lemma {:induction false} RunsCancelledForGood(w: World, runs: seq<Run>, id: SourceId)
    requires OwnDests(w) && Buried(w, id) && DestOf(w.rows, id).value.Made?
    requires forall run <- runs :: OwnEvent(run, id)
    ensures var w' := Runs(w, runs);
            && OwnDests(w') && Buried(w', id) && DestOf(w'.rows, id) == DestOf(w.rows, id)
            && forall run: Run, item: Item ::
                 (OwnEvent(run, id) && item in run.feed && item.event.sourceId == id && !item.event.cancelled) ==> !Clean(Pass(w', run))
  {
    if runs != [] {
      var init, run := runs[..|runs| - 1], runs[|runs| - 1];
      assert runs == init + [run] && run in runs;
      hide Pass, OwnEvent, OwnDests, Buried, DestOf;
      RunsCancelledForGood(w, init, id);
      var actions := PassIsTrace(Runs(w, init), run, id);
      ProperActs(actions, run, id);
      StaysBuried(Runs(w, init), actions, id);
    }
    var w' := Runs(w, runs);
    forall run: Run, item: Item | OwnEvent(run, id) && item in run.feed && item.event.sourceId == id && !item.event.cancelled
      ensures !Clean(Pass(w', run))
    {
      ReinstatingFails(w', run, item);
    }
  }
}
