/** What job goroutines wait for, what ends them, and how often they run. */
module RuntimeJobs {
  import opened Common
  import opened RuntimeTrace
  import opened Runtime
  import opened RuntimeInvariant
  import opened RuntimeRuns
  import opened RuntimeTheorems
  import TL = TraceLanguage

  /**
   * While startJobs launches it holds both locks: nobody can declare on this connection or take its cancel
   * function meanwhile, and no other RPC, nor the exit, gets a turn.
   */
  lemma LockedOut(s: State, a: Action)
    requires Reachable(s) && s.holder.Launching? && Enabled(s, a)
    ensures a.LaunchNext? || a.LaunchWatchdog? || a.FinishStart? || GoroutineStep(a)
      || (a.Declare? && a.h < |s.dropped|) || a.Arrive? || a.LoseHost? || a.Wake? || a.ServerFails?
    ensures s.host.Some? && s.host.value.locked && s.phase == Inited
  {
    var l := ReachableInv(s);
  }

  predicate Cancelled(s: State) { s.host.Some? && s.host.value.ctxDone }

  lemma GoroutineCancelStep(s: State, a: Action)
    requires Enabled(s, a) && GoroutineStep(a) && !Cancelled(s)
    ensures !Cancelled(Next(s, a).s) && !a.SeesCancel?
  {
    hide Stepped;
    if !a.TimerFires? { SteppedMoves(s, a); }
  }

  lemma OtherCancelStep(s: State, a: Action)
    requires Enabled(s, a) && !GoroutineStep(a) && a != CallCancel && a != ExitCancels && !Cancelled(s)
    ensures !Cancelled(Next(s, a).s)
  {
  }

  lemma {:induction false} NotCancelled(s: State, run: seq<Action>)
    requires Legal(s, run) && CallCancel !in run && ExitCancels !in run
    requires !Cancelled(s)
    ensures !Cancelled(After(s, run))
    ensures forall a :: a in run ==> !a.SeesCancel?
    decreases |run|
  {
    hide Enabled, Next, Cancelled;
    if run != [] {
      assert run[0] in run && forall a :: a in run[1..] ==> a in run;
      if GoroutineStep(run[0]) { GoroutineCancelStep(s, run[0]); } else { OtherCancelStep(s, run[0]); }
      NotCancelled(Next(s, run[0]).s, run[1..]);
      assert forall a :: a in run ==> a == run[0] || a in run[1..];
    }
  }

  /** Until Stop or the exit path cancels, no waiting goroutine, job or watchdog, is told to end. */
  lemma CancelledOnlyByStop(id: string, run: seq<Action>)
    requires Legal(Initial(id), run) && CallCancel !in run && ExitCancels !in run
    ensures forall a :: a in run ==> !a.SeesCancel?
    ensures !Cancelled(After(Initial(id), run))
  {
    NotCancelled(Initial(id), run);
  }

  // ---- Jobs repeat ----

  /** Moving a goroutine that does not end leaves all else alone, so a second move overwrites the first. */
  lemma MoveTwice(s: State, g: nat, x: Goroutine, y: Goroutine)
    requires s.host.Some? && g < |s.host.value.gs| && x.pc != Done && y.pc != Done
    ensures MoveGoroutine(MoveGoroutine(s, g, x), g, y) == MoveGoroutine(s, g, y)
    ensures var s' := MoveGoroutine(s, g, x);
      s'.main == s.main && s'.host.Some? && s'.host.value.gs == s.host.value.gs[g := x]
    ensures x == s.host.value.gs[g] ==> MoveGoroutine(s, g, x) == s
  {
    assert s.host.value.gs[g := x][g := y] == s.host.value.gs[g := y];
    if x == s.host.value.gs[g] { assert s.host.value.gs[g := x] == s.host.value.gs; }
  }

  /** A timer fires, or a run ends, or its goroutine decides to wait. */
  lemma JobStep(s: State, g: nat, a: Action)
    requires !s.main.Gone? && s.host.Some? && g < |s.host.value.gs| && s.host.value.gs[g].isJob
    requires a == TimerFires(g) || a == RunEnds(g) || a == Decide(g, true)
    requires s.host.value.gs[g].pc == if a.TimerFires? then Waiting else if a.RunEnds? then Running else Deciding
    ensures Enabled(s, a)
    ensures var x := s.host.value.gs[g];
      Next(s, a) ==
        if a.TimerFires? then Step(MoveGoroutine(s, g, x.(pc := Running)), [RunBegin(g)])
        else if a.RunEnds? then Step(MoveGoroutine(s, g, x.(pc := Deciding, runs := x.runs + 1)), [RunEnd(g)])
        else Step(MoveGoroutine(s, g, x.(pc := Waiting)), [])
  {
    hide MoveGoroutine;
  }

  /** A waiting job's timer fires: it runs once more and waits again. */
  lemma RunsAgain(s: State, g: nat) returns (run: seq<Action>)
    requires !s.main.Gone? && At(s, g, Waiting) && s.host.value.gs[g].isJob
    ensures var x := s.host.value.gs[g];
      Legal(s, run) && After(s, run) == MoveGoroutine(s, g, x.(runs := x.runs + 1))
    ensures TL.Runs(TraceOf(s, run), g) == TL.Ends(TraceOf(s, run), g) == 1
  {
    hide Enabled, Next, MoveGoroutine, Legal, After, TraceOf;
    var x := s.host.value.gs[g];
    var x1, x2, x3 := x.(pc := Running), x.(pc := Deciding, runs := x.runs + 1), x.(runs := x.runs + 1);
    var s1, s2 := MoveGoroutine(s, g, x1), MoveGoroutine(s, g, x2);
    JobStep(s, g, TimerFires(g));
    OneStep(s, TimerFires(g));
    MoveTwice(s, g, x1, x2);
    JobStep(s1, g, RunEnds(g));
    OneMore(s, [TimerFires(g)], RunEnds(g));
    MoveTwice(s, g, x2, x3);
    JobStep(s2, g, Decide(g, true));
    OneMore(s, [TimerFires(g)] + [RunEnds(g)], Decide(g, true));
    run := [TimerFires(g)] + [RunEnds(g)] + [Decide(g, true)];
    assert [RunBegin(g)] + [RunEnd(g)] + [] == [RunBegin(g), RunEnd(g)];
  }

  lemma CountsJoin(first: Trace, second: Trace, g: nat)
    ensures TL.Runs(first + second, g) == TL.Runs(first, g) + TL.Runs(second, g)
    ensures TL.Ends(first + second, g) == TL.Ends(first, g) + TL.Ends(second, g)
  {
  }

  /** A waiting job can complete any number of further runs, whatever else stands still. */
  lemma {:induction false} JobsRepeat(s: State, g: nat, n: nat) returns (run: seq<Action>)
    requires !s.main.Gone? && At(s, g, Waiting) && s.host.value.gs[g].isJob
    ensures var x := s.host.value.gs[g];
      Legal(s, run) && After(s, run) == MoveGoroutine(s, g, x.(runs := x.runs + n))
    ensures TL.Runs(TraceOf(s, run), g) == TL.Ends(TraceOf(s, run), g) == n
    decreases n
  {
    hide Enabled, Next, MoveGoroutine, Legal, After, TraceOf, TL.Runs, TL.Ends;
    var x := s.host.value.gs[g];
    if n == 0 {
      run := NoFurtherRuns(s, g);
    } else {
      var x1 := x.(runs := x.runs + 1);
      var once := RunsAgain(s, g);
      MoveTwice(s, g, x1, x.(runs := x.runs + n));
      var s1 := MoveGoroutine(s, g, x1);
      var rest := JobsRepeat(s1, g, n - 1);
      RunThen(s, once, rest);
      CountsJoin(TraceOf(s, once), TraceOf(s1, rest), g);
      run := once + rest;
    }
  }

  lemma NoFurtherRuns(s: State, g: nat) returns (run: seq<Action>)
    requires At(s, g, Waiting)
    ensures Legal(s, run) && After(s, run) == MoveGoroutine(s, g, s.host.value.gs[g])
    ensures TL.Runs(TraceOf(s, run), g) == TL.Ends(TraceOf(s, run), g) == 0
  {
    run := [];
    MoveTwice(s, g, s.host.value.gs[g], s.host.value.gs[g]);
  }

  lemma {:induction false} RunThen(s: State, first: seq<Action>, second: seq<Action>)
    requires Legal(s, first) && Legal(After(s, first), second)
    ensures Legal(s, first + second) && After(s, first + second) == After(After(s, first), second)
    ensures TraceOf(s, first + second) == TraceOf(s, first) + TraceOf(After(s, first), second)
    decreases |first|
  {
    hide Enabled, Next;
    if first == [] {
      assert first + second == second;
    } else {
      RunThen(Next(s, first[0]).s, first[1..], second);
      assert (first + second)[1..] == first[1..] + second;
    }
  }
}
