/** Concurrent backfill tasks that replace and restore one shared engine method. */
module FetchHook {
  import opened Collections

  /** What `hist_engine._fetch_candles` holds: the engine's own method, or a task's delay
      wrapper around whatever it found installed. */
  datatype Fetch = Original | Delayed(task: nat, inner: Fetch)

  ghost function Depth(f: Fetch): nat {
    match f
    case Original => 0
    case Delayed(_, inner) => 1 + Depth(inner)
  }

  datatype Act = Fetched | Paused(seconds: real)

  datatype Called = Called(result: int, acts: seq<Act>)

  /** Calling through the chain: the inner call first, then the pause. The engine's own method
      may fall back to another provider by calling whatever is installed by then, `again`. */
  ghost function Call(f: Fetch, again: Option<Fetch>, fetched: int, delay: real): Called
    decreases again.Some?, f
  {
    match f
    case Original => if again.Some? then Call(again.value, None, fetched, delay) else Called(fetched, [Fetched])
    case Delayed(_, inner) =>
      var c := Call(inner, again, fetched, delay);
      if delay > 0.0 then Called(c.result, c.acts + [Paused(delay)]) else c
  }

  ghost function Pauses(n: nat, delay: real): seq<Act> {
    if n == 0 then [] else Pauses(n - 1, delay) + [Paused(delay)]
  }

  /** A call fetches once, returns what was fetched, and only then pauses: once per wrapper
      of the chain, and once more per wrapper of the chain re-entered for the fallback. */
  lemma {:induction false} CallThroughChain(f: Fetch, again: Option<Fetch>, fetched: int, delay: real)
    ensures var pauses := Depth(f) + if again.Some? then Depth(again.value) else 0;
            Call(f, again, fetched, delay)
            == Called(fetched, [Fetched] + Pauses(if delay > 0.0 then pauses else 0, delay))
    decreases again.Some?, f
  {
    match f
    case Original =>
      if again.Some? {
        CallThroughChain(again.value, None, fetched, delay);
      }
    case Delayed(_, inner) =>
      CallThroughChain(inner, again, fetched, delay);
      var n := Depth(inner) + if again.Some? then Depth(again.value) else 0;
      assert [Fetched] + (Pauses(n, delay) + [Paused(delay)]) == ([Fetched] + Pauses(n, delay)) + [Paused(delay)];
  }

  // ----- runs of tasks under the semaphore

  /** How a task ends; a cancellation runs the `finally` clause but no `except` and no tally. */
  datatype End = Succeeded | Failed | Cancelled

  datatype Event = Start(task: nat) | Finish(task: nat, end: End)

  /** `saved` holds the `_original_fetch` local of every running task; a task runs once. */
  datatype Hook = Hook(installed: Fetch, saved: map<nat, Fetch>, launched: set<nat>, okCount: nat, failed: seq<nat>)

  const FRESH := Hook(Original, map[], {}, 0, [])

  ghost predicate Enabled(permits: nat, h: Hook, e: Event) {
    match e
    case Start(t) => |h.saved| < permits && t !in h.launched
    case Finish(t, _) => t in h.saved
  }

  ghost function Step(h: Hook, e: Event): Hook
    requires e.Finish? ==> e.task in h.saved
  {
    match e
    case Start(t) => Hook(Delayed(t, h.installed), h.saved[t := h.installed], h.launched + {t}, h.okCount, h.failed)
    case Finish(t, end) =>
      Hook(h.saved[t], h.saved - {t}, h.launched,
           h.okCount + (if end == Succeeded then 1 else 0), if end == Failed then h.failed + [t] else h.failed)
  }

  /** The state after a run, unless the run is impossible. */
  ghost function After(permits: nat, run: seq<Event>): Option<Hook> {
    if run == [] then Some(FRESH)
    else match After(permits, run[..|run| - 1])
         case None => None
         case Some(h) => if Enabled(permits, h, run[|run| - 1]) then Some(Step(h, run[|run| - 1])) else None
  }

  lemma OneMore(permits: nat, run: seq<Event>, e: Event)
    ensures After(permits, run + [e]) ==
            match After(permits, run)
            case None => None
            case Some(h) => if Enabled(permits, h, e) then Some(Step(h, e)) else None
  {
    assert (run + [e])[..|run + [e]| - 1] == run;
  }

  class BackfillRun {
    const permits: nat
    var installed: Fetch
    var saved: map<nat, Fetch>
    var launched: set<nat>
    var okCount: nat
    var failed: seq<nat>
    ghost var history: seq<Event>

    ghost function View(): Hook reads this { Hook(installed, saved, launched, okCount, failed) }

    ghost predicate Valid() reads this { After(permits, history) == Some(View()) }

    constructor (permits: nat)
      ensures Valid() && this.permits == permits && history == [] && View() == FRESH
    {
      this.permits := permits;
      installed, saved, launched, okCount, failed, history := Original, map[], {}, 0, [], [];
    }

    /** A task that got a permit wraps what it finds installed. */
    method Begin(t: nat)
      requires Valid() && |saved| < permits && t !in launched
      modifies this
      ensures Valid() && history == old(history) + [Start(t)] && View() == Step(old(View()), Start(t))
    {
      OneMore(permits, history, Start(t));
      launched := launched + {t};
      var original := installed;
      installed := Delayed(t, original);
      saved := saved[t := original];
      history := history + [Start(t)];
    }

    /** The `finally` clause, the tally and the release of the permit. */
    method Complete(t: nat, end: End)
      requires Valid() && t in saved
      modifies this
      ensures Valid() && history == old(history) + [Finish(t, end)] && View() == Step(old(View()), Finish(t, end))
    {
      ghost var before := View();
      OneMore(permits, history, Finish(t, end));
      installed := saved[t];
      saved := saved - {t};
      match end {
        case Succeeded => okCount := okCount + 1;
        case Failed => failed := failed + [t];
        case Cancelled =>
      }
      history := history + [Finish(t, end)];
      assert View() == Step(before, Finish(t, end));
    }
  }

  // ----- every run

  ghost function Cancellations(run: seq<Event>): nat {
    if run == [] then 0
    else
      var last := run[|run| - 1];
      Cancellations(run[..|run| - 1]) + if last.Finish? && last.end == Cancelled then 1 else 0
  }

  ghost predicate Bounded(permits: nat, h: Hook, cancelled: nat) {
    && Depth(h.installed) <= |h.launched|
    && (forall t <- h.saved :: t in h.launched && Depth(h.saved[t]) <= |h.launched|)
    && |h.saved| <= permits
    && h.okCount + |h.failed| + cancelled + |h.saved| == |h.launched|
  }

  lemma StepStaysBounded(permits: nat, h: Hook, e: Event, cancelled: nat)
    requires Bounded(permits, h, cancelled) && Enabled(permits, h, e)
    ensures Bounded(permits, Step(h, e), cancelled + if e.Finish? && e.end == Cancelled then 1 else 0)
  {
    if e.Finish? {
      assert (h.saved - {e.task}).Keys == h.saved.Keys - {e.task};
    } else {
      assert h.saved[e.task := h.installed].Keys == h.saved.Keys + {e.task};
    }
  }

  /** Every installed or captured chain is at most as long as the number of tasks started; no
      more tasks run than there are permits; every task is running, tallied or cancelled. */
  lemma {:induction false} RunsStayBounded(permits: nat, run: seq<Event>)
    requires After(permits, run).Some?
    ensures Bounded(permits, After(permits, run).value, Cancellations(run))
  {
    if run != [] {
      var front := run[..|run| - 1];
      RunsStayBounded(permits, front);
      StepStaysBounded(permits, After(permits, front).value, run[|run| - 1], Cancellations(front));
    }
  }

  ghost function Successes(run: seq<Event>): nat {
    if run == [] then 0
    else
      var last := run[|run| - 1];
      Successes(run[..|run| - 1]) + if last.Finish? && last.end == Succeeded then 1 else 0
  }

  /** The tasks that ended in failure, in the order in which they ended. */
  ghost function Failures(run: seq<Event>): seq<nat> {
    if run == [] then []
    else
      var last := run[|run| - 1];
      Failures(run[..|run| - 1]) + if last.Finish? && last.end == Failed then [last.task] else []
  }

  /** The summary counts the successful ends and lists the failed tasks in order. */
  lemma {:induction false} TalliesAre(permits: nat, run: seq<Event>)
    requires After(permits, run).Some?
    ensures After(permits, run).value.okCount == Successes(run) && After(permits, run).value.failed == Failures(run)
  {
    if run != [] {
      var front := run[..|run| - 1];
      TalliesAre(permits, front);
      assert Failures(front) + [] == Failures(front);
    }
  }

  // ----- when the engine's own method is back

  /** The run up to the latest start of a task. */
  ghost function Before(run: seq<Event>, t: nat): (part: seq<Event>)
    ensures |part| <= |run| && (Start(t) in run ==> |part| < |run|)
  {
    if run == [] then []
    else if run[|run| - 1] == Start(t) then run[..|run| - 1]
    else Before(run[..|run| - 1], t)
  }

  lemma BeforeSnoc(run: seq<Event>, e: Event, t: nat)
    ensures Before(run + [e], t) == if e == Start(t) then run else Before(run, t)
  {
    assert (run + [e])[..|run + [e]| - 1] == run;
  }

  /** A running task holds what was installed at the moment it started. */
  lemma {:induction false} CaptureIsThePast(permits: nat, run: seq<Event>, t: nat)
    requires After(permits, run).Some? && t in After(permits, run).value.saved
    ensures Start(t) in run && After(permits, Before(run, t)).Some?
    ensures After(permits, run).value.saved[t] == After(permits, Before(run, t)).value.installed
  {
    var front, e := run[..|run| - 1], run[|run| - 1];
    assert run == front + [e];
    BeforeSnoc(front, e, t);
    if e != Start(t) {
      CaptureIsThePast(permits, front, t);
    }
  }

  /** A finishing task puts the hook back to the moment it started, whatever the tasks that
      started or finished in between did to it. */
  lemma FinishRewinds(permits: nat, run: seq<Event>, t: nat, end: End)
    requires After(permits, run + [Finish(t, end)]).Some?
    ensures Start(t) in run && After(permits, Before(run, t)).Some?
    ensures After(permits, run + [Finish(t, end)]).value.installed == After(permits, Before(run, t)).value.installed
  {
    OneMore(permits, run, Finish(t, end));
    CaptureIsThePast(permits, run, t);
  }

  /** Cut the run where its last finisher started, and again; nothing is left at the end. */
  ghost predicate CutsToNothing(run: seq<Event>)
    decreases |run|
  {
    if run == [] then true
    else match run[|run| - 1]
         case Start(_) => false
         case Finish(t, _) => CutsToNothing(Before(run[..|run| - 1], t))
  }

  /** The engine's own method is installed exactly when that cutting leaves nothing. */
  lemma {:induction false} RestoredIff(permits: nat, run: seq<Event>)
    requires After(permits, run).Some?
    ensures After(permits, run).value.installed == Original <==> CutsToNothing(run)
    decreases |run|
  {
    if run != [] && run[|run| - 1].Finish? {
      var front, e := run[..|run| - 1], run[|run| - 1];
      assert run == front + [e];
      FinishRewinds(permits, front, e.task, e.end);
      RestoredIff(permits, Before(front, e.task));
    }
  }

  // ----- nested runs

  /** The running tasks in starting order, if every finisher was the latest of them. */
  ghost function Stack(run: seq<Event>): Option<seq<nat>> {
    if run == [] then Some([])
    else match Stack(run[..|run| - 1])
         case None => None
         case Some(s) =>
           match run[|run| - 1]
           case Start(t) => Some(s + [t])
           case Finish(t, _) => if s != [] && s[|s| - 1] == t then Some(s[..|s| - 1]) else None
  }

  ghost function Wrapped(s: seq<nat>): Fetch {
    if s == [] then Original else Delayed(s[|s| - 1], Wrapped(s[..|s| - 1]))
  }

  ghost function SavedBy(s: seq<nat>): map<nat, Fetch> {
    if s == [] then map[] else SavedBy(s[..|s| - 1])[s[|s| - 1] := Wrapped(s[..|s| - 1])]
  }

  ghost predicate Unique(s: seq<nat>) {
    s == [] || (Unique(s[..|s| - 1]) && s[|s| - 1] !in SavedBy(s[..|s| - 1]))
  }

  ghost predicate Stacked(h: Hook, s: seq<nat>) {
    h.installed == Wrapped(s) && h.saved == SavedBy(s) && h.saved.Keys <= h.launched && Unique(s)
  }

  lemma StackedStep(h: Hook, s: seq<nat>, e: Event)
    requires Stacked(h, s)
    requires e.Start? ==> e.task !in h.launched
    requires e.Finish? ==> s != [] && s[|s| - 1] == e.task
    ensures e.Finish? ==> e.task in h.saved
    ensures Stacked(Step(h, e), if e.Start? then s + [e.task] else s[..|s| - 1])
  {
    if e.Start? {
      assert (s + [e.task])[..|s + [e.task]| - 1] == s;
    } else {
      assert SavedBy(s) - {e.task} == SavedBy(s[..|s| - 1]);
    }
  }

  /** In a nested run the installed chain is exactly the running tasks, so the engine's own
      method is back whenever none runs. */
  lemma {:induction false} NestedRunsRestore(permits: nat, run: seq<Event>)
    requires After(permits, run).Some? && Stack(run).Some?
    ensures Stacked(After(permits, run).value, Stack(run).value)
    ensures After(permits, run).value.saved == map[] ==> After(permits, run).value.installed == Original
  {
    if run != [] {
      NestedRunsRestore(permits, run[..|run| - 1]);
      StackedStep(After(permits, run[..|run| - 1]).value, Stack(run[..|run| - 1]).value, run[|run| - 1]);
      var s := Stack(run).value;
      assert s != [] ==> s[|s| - 1] in SavedBy(s);
    }
  }

  lemma {:induction false} StackSize(s: seq<nat>)
    requires Unique(s)
    ensures |SavedBy(s)| == |s|
  {
    if s != [] {
      StackSize(s[..|s| - 1]);
      assert SavedBy(s).Keys == SavedBy(s[..|s| - 1]).Keys + {s[|s| - 1]};
    }
  }

  /** With one permit every run is nested. */
  lemma {:induction false} OnePermitIsNested(run: seq<Event>)
    requires After(1, run).Some?
    ensures Stack(run).Some?
  {
    if run != [] {
      var front := run[..|run| - 1];
      OnePermitIsNested(front);
      NestedRunsRestore(1, front);
      RunsStayBounded(1, front);
      var s := Stack(front).value;
      StackSize(s);
      if s != [] {
        assert s == [s[0]] && s[..0] == [];
        assert SavedBy(s).Keys == {s[0]};
      }
    }
  }

  // ----- the default of two permits

  /** Two tasks overlap and finish in starting order. */
  ghost function Overlap(a: nat, b: nat): seq<Event> {
    [Start(a), Start(b), Finish(a, Succeeded), Finish(b, Succeeded)]
  }

  ghost function Overlaps(n: nat): seq<Event> {
    if n == 0 then [] else Overlaps(n - 1) + Overlap(2 * n - 2, 2 * n - 1)
  }

  lemma Extend(permits: nat, run: seq<Event>, h: Hook, e: Event)
    requires After(permits, run) == Some(h) && Enabled(permits, h, e)
    ensures After(permits, run + [e]) == Some(Step(h, e))
  {
    OneMore(permits, run, e);
  }

  lemma ExtendTwice(permits: nat, run: seq<Event>, h: Hook, d: Event, e: Event)
    requires After(permits, run) == Some(h) && Enabled(permits, h, d) && Enabled(permits, Step(h, d), e)
    ensures After(permits, run + [d, e]) == Some(Step(Step(h, d), e))
  {
    Extend(permits, run, h, d);
    Extend(permits, run + [d], Step(h, d), e);
    assert run + [d, e] == (run + [d]) + [e];
  }

  ghost function Both(h: Hook, a: nat, b: nat): Hook {
    Hook(Delayed(b, Delayed(a, h.installed)), map[a := h.installed, b := Delayed(a, h.installed)],
         h.launched + {a} + {b}, h.okCount, h.failed)
  }

  ghost function Leftover(h: Hook, a: nat, b: nat): Hook {
    Hook(Delayed(a, h.installed), map[], h.launched + {a} + {b}, h.okCount + 2, h.failed)
  }

  lemma TwoStarts(run: seq<Event>, h: Hook, a: nat, b: nat)
    requires After(2, run) == Some(h)
    requires h.saved == map[] && a !in h.launched && b !in h.launched && a != b
    ensures After(2, run + [Start(a), Start(b)]) == Some(Both(h, a, b))
  {
    assert Step(h, Start(a)).saved.Keys == {a};
    ExtendTwice(2, run, h, Start(a), Start(b));
  }

  lemma FinishBoth(h: Hook, a: nat, b: nat)
    requires a != b
    ensures var g := Both(h, a, b);
            && Enabled(2, g, Finish(a, Succeeded)) && Enabled(2, Step(g, Finish(a, Succeeded)), Finish(b, Succeeded))
            && Step(Step(g, Finish(a, Succeeded)), Finish(b, Succeeded)) == Leftover(h, a, b)
  {
    var g := Both(h, a, b);
    assert g.saved - {a} == map[b := Delayed(a, h.installed)];
    assert g.saved - {a} - {b} == map[];
  }

  lemma TwoFinishes(run: seq<Event>, h: Hook, a: nat, b: nat)
    requires After(2, run) == Some(Both(h, a, b)) && a != b
    ensures After(2, run + [Finish(a, Succeeded), Finish(b, Succeeded)]) == Some(Leftover(h, a, b))
  {
    FinishBoth(h, a, b);
    ExtendTwice(2, run, Both(h, a, b), Finish(a, Succeeded), Finish(b, Succeeded));
  }

  lemma OverlapLeaks(run: seq<Event>, h: Hook, a: nat, b: nat)
    requires After(2, run) == Some(h)
    requires h.saved == map[] && a !in h.launched && b !in h.launched && a != b
    ensures After(2, run + Overlap(a, b)) == Some(Leftover(h, a, b))
  {
    TwoStarts(run, h, a, b);
    var mid := run + [Start(a), Start(b)];
    TwoFinishes(mid, h, a, b);
    assert run + Overlap(a, b) == mid + [Finish(a, Succeeded), Finish(b, Succeeded)];
  }

  /** With two permits a wrapper can stay behind per pair of tasks: for every n a run of 2n
      tasks that all succeeded ends with n wrappers installed and no task running. */
  lemma {:induction false} LeftoversGrow(n: nat)
    ensures After(2, Overlaps(n)).Some?
    ensures var h := After(2, Overlaps(n)).value;
            && h.saved == map[] && Depth(h.installed) == n
            && |h.launched| == 2 * n && forall t <- h.launched :: t < 2 * n
  {
    if n > 0 {
      LeftoversGrow(n - 1);
      OverlapLeaks(Overlaps(n - 1), After(2, Overlaps(n - 1)).value, 2 * n - 2, 2 * n - 1);
    }
  }

  // ----- the condition on the concurrency

  lemma {:induction false} MorePermits(p: nat, q: nat, run: seq<Event>)
    requires p <= q && After(p, run).Some?
    ensures After(q, run) == After(p, run)
  {
    if run != [] {
      MorePermits(p, q, run[..|run| - 1]);
    }
  }

  /** No task runs, and a method other than the engine's own is installed. */
  ghost predicate LeavesWrapper(permits: nat, run: seq<Event>) {
    var h := After(permits, run);
    h.Some? && h.value.saved == map[] && h.value.installed != Original
  }

  /** Restoration is certain, whatever the schedule and however the tasks end, exactly with
      at most one permit. */
  lemma AlwaysRestoredIff(permits: nat)
    ensures (forall run :: !LeavesWrapper(permits, run)) <==> permits <= 1
  {
    if permits <= 1 {
      forall run ensures !LeavesWrapper(permits, run) {
        if After(permits, run).Some? {
          MorePermits(permits, 1, run);
          OnePermitIsNested(run);
          NestedRunsRestore(1, run);
        }
      }
    } else {
      LeftoversGrow(1);
      MorePermits(2, permits, Overlaps(1));
      assert LeavesWrapper(permits, Overlaps(1));
    }
  }
}
