/**
 The supervisor of the background task: crashes are restarted under a sliding
 window limit, and a stop ends all of it (app/services/background_supervisor.py).
 Clock readings are whole ticks.
 */
module Supervisor {
  import opened SlidingWindow

  /** The supervising task: created but not run yet, awaiting the orchestrator's task, or over. */
  datatype Loop = Scheduled | Watching | Ended

  /** The delayed restart: none, asleep, or over. */
  datatype Restarter = NoRestart | Sleeping | Over

  datatype Orchestrator = Idle | Working | Crashed | Cancelled

  datatype View = View(
    timestamps: seq<int>,
    crashCount: nat,
    stopping: bool,
    loop: Loop,
    restarter: Restarter,
    orchestrator: Orchestrator)

  datatype Policy = Policy(maxRestarts: int, window: int)

  /** What the event loop may do next. A crash reads the clock twice: for the decision and for the record. */
  datatype Event =
    | LoopRuns
    | OrchestratorCrashes
    | CrashSeen(now: int, at: int)
    | RestarterWakes
    | StopBegins
    | OrchestratorCancelled
    | LoopCancelled

  predicate Admits(timestamps: seq<int>, p: Policy, now: int) {
    |Pruned(timestamps, now - p.window)| < p.maxRestarts
  }

  function SeeCrash(v: View, p: Policy, now: int, at: int): View {
    var w := v.(crashCount := v.crashCount + 1, loop := Ended);
    if v.stopping then w
    else
      var kept := Pruned(v.timestamps, now - p.window);
      if Admits(v.timestamps, p, now) then w.(timestamps := kept + [at], restarter := Sleeping)
      else w.(timestamps := kept)
  }

  function Wake(v: View): View {
    if v.stopping then v.(restarter := Over)
    else v.(restarter := Over, orchestrator := Idle, loop := Scheduled)
  }

  function BeginStop(v: View): View {
    v.(stopping := true, restarter := if v.restarter.Sleeping? then Over else v.restarter)
  }

  function Step(v: View, p: Policy, e: Event): View {
    match e
    case LoopRuns => v.(loop := Watching, orchestrator := Working)
    case OrchestratorCrashes => v.(orchestrator := Crashed)
    case CrashSeen(now, at) => SeeCrash(v, p, now, at)
    case RestarterWakes => Wake(v)
    case StopBegins => BeginStop(v)
    case OrchestratorCancelled => v.(orchestrator := Cancelled)
    case LoopCancelled => v.(loop := Ended, orchestrator := Cancelled)
  }

  predicate Enabled(v: View, e: Event) {
    match e
    case LoopRuns => v.loop.Scheduled?
    case OrchestratorCrashes => v.orchestrator.Working?
    case CrashSeen(now, at) => v.loop.Watching? && v.orchestrator.Crashed? && now <= at
    case RestarterWakes => v.restarter.Sleeping?
    case StopBegins => !v.stopping
    case OrchestratorCancelled => v.stopping && v.orchestrator.Working?
    case LoopCancelled => v.stopping && !v.loop.Ended?
  }

  class BackgroundSupervisor {
    const policy: Policy
    var timestamps: seq<int>
    var crashCount: nat
    var stopping: bool
    var loop: Loop
    var restarter: Restarter
    var orchestrator: Orchestrator

    /** A supervisor whose start has been called once. */
    constructor (p: Policy)
      ensures policy == p && State() == View([], 0, false, Scheduled, NoRestart, Idle)
    {
      policy := p;
      timestamps, crashCount, stopping := [], 0, false;
      loop, restarter, orchestrator := Scheduled, NoRestart, Idle;
    }

    function State(): View
      reads this
    {
      View(timestamps, crashCount, stopping, loop, restarter, orchestrator)
    }

    method RecentRestarts(now: int) returns (recent: seq<int>)
      ensures recent == Pruned(timestamps, now - policy.window)
    {
      recent := [];
      for i := 0 to |timestamps|
        invariant recent == Pruned(timestamps[..i], now - policy.window)
      {
        assert timestamps[..i + 1][..i] == timestamps[..i];
        if now - timestamps[i] < policy.window { recent := recent + [timestamps[i]]; }
      }
      assert timestamps[..|timestamps|] == timestamps;
    }

    method IsHealthy(now: int) returns (healthy: bool)
      ensures healthy == Admits(timestamps, policy, now)
    {
      var recent := RecentRestarts(now);
      healthy := |recent| < policy.maxRestarts;
    }

    method ShouldRestart(now: int) returns (allowed: bool)
      modifies this`timestamps
      ensures allowed == old(Admits(timestamps, policy, now))
      ensures timestamps == Pruned(old(timestamps), now - policy.window)
    {
      timestamps := RecentRestarts(now);
      allowed := |timestamps| < policy.maxRestarts;
    }

    /** The orchestrator's task has crashed and the supervising task sees it. */
    method OnCrash(now: int, at: int)
      modifies this
      ensures State() == SeeCrash(old(State()), policy, now, at)
    {
      crashCount := crashCount + 1;
      loop := Ended;
      if stopping { return; }
      var allowed := ShouldRestart(now);
      if allowed {
        timestamps := timestamps + [at];
        restarter := Sleeping;
      }
    }

    /** The delay is over. */
    method RestartAfterDelay()
      modifies this
      ensures State() == Wake(old(State()))
    {
      restarter := Over;
      if stopping { return; }
      orchestrator := Idle;
      loop := Scheduled;
    }

    /** Stop up to its first wait: the flag is set and a sleeping restart is cancelled. */
    method Stop()
      modifies this
      ensures State() == BeginStop(old(State()))
    {
      stopping := true;
      if restarter.Sleeping? { restarter := Over; }
    }
  }

  // ----- Runs -----

  /** A run so far: the supervisor, every restart ever granted, and the latest clock reading. */
  datatype Run = Run(view: View, restarts: seq<int>, clock: int)

  function Continue(r: Run, p: Policy, e: Event): Run {
    var granted := e.CrashSeen? && !r.view.stopping && Admits(r.view.timestamps, p, e.now);
    Run(Step(r.view, p, e),
        if granted then r.restarts + [e.at] else r.restarts,
        if e.CrashSeen? then e.at else r.clock)
  }

  function ContinueAll(r: Run, p: Policy, events: seq<Event>): Run
    decreases |events|
  {
    if events == [] then r else Continue(ContinueAll(r, p, events[..|events| - 1]), p, events[|events| - 1])
  }

  /** Every event is possible when it happens, and the clock never goes back. */
  ghost predicate Possible(r: Run, p: Policy, events: seq<Event>) {
    forall i :: 0 <= i < |events| ==> CanHappen(ContinueAll(r, p, events[..i]), events[i])
  }

  predicate CanHappen(r: Run, e: Event) {
    Enabled(r.view, e) && (e.CrashSeen? ==> r.clock <= e.now <= e.at)
  }

  function Bound(p: Policy): nat {
    if p.maxRestarts < 0 then 0 else p.maxRestarts
  }

  /** The kept timestamps count like the full history wherever a later check can look. */
  ghost predicate KeptMatter(r: Run, p: Policy) {
    forall y :: r.clock - p.window <= y ==> After(r.view.timestamps, y) == After(r.restarts, y)
  }

  ghost predicate WithinLimit(r: Run, p: Policy) {
    KeptMatter(r, p) && Limited(r.restarts, p.window, Bound(p))
  }

  /** The decision made on the pruned list is the decision the full history would give. */
  lemma {:induction false} AdmitsByHistory(r: Run, p: Policy, now: int)
    requires KeptMatter(r, p) && r.clock <= now
    ensures Admits(r.view.timestamps, p, now) <==> After(r.restarts, now - p.window) < p.maxRestarts
  {
    PruningIsHarmless(r.view.timestamps, now - p.window, now - p.window);
  }

  /** The pruned and extended list counts like the extended history. */
  lemma {:induction false} KeptAfterCrash(kept: seq<int>, restarts: seq<int>, cut: int, at: int, y: int)
    requires cut <= y && After(kept, y) == After(restarts, y)
    ensures After(Pruned(kept, cut), y) == After(restarts, y)
    ensures After(Pruned(kept, cut) + [at], y) == After(restarts + [at], y)
  {
    PruningIsHarmless(kept, cut, y);
    AfterLast(Pruned(kept, cut), at, y);
    AfterLast(restarts, at, y);
  }

  lemma {:induction false} CrashKeepsKept(r: Run, p: Policy, e: Event, n: Run)
    requires KeptMatter(r, p) && CanHappen(r, e) && e.CrashSeen? && n == Continue(r, p, e)
    ensures KeptMatter(n, p)
  {
    forall y | n.clock - p.window <= y ensures After(n.view.timestamps, y) == After(n.restarts, y) {
      assert After(r.view.timestamps, y) == After(r.restarts, y);
      KeptAfterCrash(r.view.timestamps, r.restarts, e.now - p.window, e.at, y);
    }
  }

  lemma {:induction false} CrashKeepsLimit(r: Run, p: Policy, e: Event)
    requires WithinLimit(r, p) && CanHappen(r, e) && e.CrashSeen?
    ensures WithinLimit(Continue(r, p, e), p)
  {
    CrashKeepsKept(r, p, e, Continue(r, p, e));
    AdmitsByHistory(r, p, e.now);
    if !r.view.stopping && Admits(r.view.timestamps, p, e.now) {
      AfterMonotone(r.restarts, e.now - p.window, e.at - p.window);
      AdmitKeepsLimit(r.restarts, e.at, p.window, Bound(p));
    }
  }

  /** In every run no interval of the window's length holds more restarts than allowed, pruned or not. */
  lemma {:induction false} RestartsAreLimited(p: Policy, start: Run, events: seq<Event>)
    requires WithinLimit(start, p) && Possible(start, p, events)
    ensures WithinLimit(ContinueAll(start, p, events), p)
    decreases |events|
  {
    if events != [] {
      var rest, e := events[..|events| - 1], events[|events| - 1];
      assert forall i :: 0 <= i < |rest| ==> rest[..i] == events[..i];
      RestartsAreLimited(p, start, rest);
      var m := ContinueAll(start, p, rest);
      assert CanHappen(m, e);
      if e.CrashSeen? { CrashKeepsLimit(m, p, e); }
    }
  }

  lemma {:induction false} FreshStartIsWithinLimit(p: Policy, clock: int)
    ensures WithinLimit(Run(View([], 0, false, Scheduled, NoRestart, Idle), [], clock), p)
  {
    forall a ensures InWindow([], a, p.window) <= Bound(p) { }
  }

  /** A crash is restarted exactly when the full history allows it, and a granted restart brings the loop back. */
  lemma {:induction false} CrashRestartsIff(r: Run, p: Policy, e: Event)
    requires KeptMatter(r, p) && CanHappen(r, e) && e.CrashSeen? && !r.view.stopping
    ensures var n := Continue(r, p, e);
      && (After(r.restarts, e.now - p.window) < p.maxRestarts <==> n.restarts == r.restarts + [e.at])
      && (After(r.restarts, e.now - p.window) >= p.maxRestarts <==> n.restarts == r.restarts)
      && (n.restarts != r.restarts ==> n.view.restarter.Sleeping? && Wake(n.view).loop.Scheduled?)
      && n.view.crashCount == r.view.crashCount + 1
  {
    AdmitsByHistory(r, p, e.now);
    assert |r.restarts + [e.at]| == |r.restarts| + 1;
  }

  // ----- Stopping -----

  /** How often the orchestrator is started by a list of events. */
  function Starts(events: seq<Event>): nat {
    if events == [] then 0
    else Starts(events[..|events| - 1]) + if events[|events| - 1].LoopRuns? then 1 else 0
  }

  /** After a stop began, no restart is granted, and at most the loop that was already scheduled still starts. */
  lemma {:induction false} AfterStop(p: Policy, r: Run, events: seq<Event>)
    requires r.view.stopping && Possible(r, p, events)
    ensures var n := ContinueAll(r, p, events);
      && n.view.stopping && n.restarts == r.restarts
      && Starts(events) + (if n.view.loop.Scheduled? then 1 else 0) <= (if r.view.loop.Scheduled? then 1 else 0)
    decreases |events|
  {
    if events != [] {
      var rest, e := events[..|events| - 1], events[|events| - 1];
      assert forall i :: 0 <= i < |rest| ==> rest[..i] == events[..i];
      AfterStop(p, r, rest);
      assert CanHappen(ContinueAll(r, p, rest), e);
    }
  }

  /** Nothing is started after a stop in any continuation exactly when no supervising task was waiting to run. */
  lemma {:induction false} StopIsFinalIff(p: Policy, r: Run)
    requires r.view.stopping
    ensures (forall events :: Possible(r, p, events) ==> Starts(events) == 0) <==> !r.view.loop.Scheduled?
  {
    if r.view.loop.Scheduled? {
      var events := [LoopRuns];
      assert events[..0] == [];
      assert ContinueAll(r, p, []) == r;
      assert Possible(r, p, events);
      assert Starts(events[..0]) == 0;
      assert Starts(events) == 1;
    } else {
      forall events | Possible(r, p, events) ensures Starts(events) == 0 { AfterStop(p, r, events); }
    }
  }

  /** A start that is followed by a stop before the task ran: the orchestrator is started after the stop. */
  lemma {:induction false} StopBeforeFirstRun(p: Policy, clock: int)
    ensures var start := Run(View([], 0, false, Scheduled, NoRestart, Idle), [], clock);
      var events := [StopBegins, LoopRuns];
      && Possible(start, p, events) && Starts(events) == 1
      && ContinueAll(start, p, events).view.stopping && ContinueAll(start, p, events).view.orchestrator.Working?
  {
    var start := Run(View([], 0, false, Scheduled, NoRestart, Idle), [], clock);
    var events := [StopBegins, LoopRuns];
    assert events[..0] == [] && events[..1] == [StopBegins] && [StopBegins][..0] == [];
    assert ContinueAll(start, p, []) == start;
    assert ContinueAll(start, p, [StopBegins]) == Continue(start, p, StopBegins);
    assert Starts([]) == 0 && Starts([StopBegins]) == 0;
  }
}
