/** How a module process ends, and what its goroutines can do before that, over every run from a fresh process. */
module RuntimeExit {
  import opened Common
  import opened RuntimeTrace
  import opened Runtime
  import opened RuntimeInvariant
  import opened RuntimeRuns
  import opened RuntimeTheorems
  import TL = TraceLanguage

  // ---- What a step can touch, by kinds of step ----

  predicate OfInit(a: Action) { a.CallInit? || a.InitReturns? || a.RecordInterval? || a.RecordJobs? || a.AnswerInit? }

  predicate OfStart(a: Action) {
    a.CallStart? || a.StartReturns? || a.BeginJobs? || a.LaunchNext? || a.LaunchWatchdog? || a.FinishStart?
  }

  predicate OfStop(a: Action) {
    a.CallStop? || a.TakeCancel? || a.CallCancel? || a.WaitReturns? || a.StopReturns? || a.PostToken?
  }

  predicate OfExit(a: Action) {
    a.Wake? || a.ServerFails? || a.Drained? || a.ExitTakes? || a.ExitCancels? || a.ExitWaitReturns? || a.ExitCloses?
  }

  const SHUTDOWN_DONE := Returned(ShutdownRpc, OK)

  /** Who serve is and where it stands, which RPCs wait, and which tokens. */
  ghost predicate Framed(s: State, a: Action)
    requires Enabled(s, a)
  {
    var s' := Next(s, a).s;
    && s'.id == s.id
    && (s.main != Select ==> s'.main != Select)
    && s'.queued + (if a.CallInit? || a.CallStart? || a.CallStop? then 1 else 0)
       == s.queued + (if a == Arrive then 1 else 0)
    && (s'.main == Select ==>
          && (s'.shutdownToken <==> s.shutdownToken || a == PostToken)
          && (s'.hostLostToken <==> s.hostLostToken || a == LoseHost))
    && (SHUTDOWN_DONE in Next(s, a).events <==> a == PostToken)
  }

  lemma InitFramed(s: State, a: Action)
    requires Enabled(s, a) && OfInit(a)
    ensures Framed(s, a)
  {
  }

  lemma StartFramed(s: State, a: Action)
    requires Enabled(s, a) && OfStart(a)
    ensures Framed(s, a)
  {
  }

  lemma StopFramed(s: State, a: Action)
    requires Enabled(s, a) && OfStop(a)
    ensures Framed(s, a)
  {
  }

  lemma WakeFramed(s: State, a: Action)
    requires Enabled(s, a) && (a.Wake? || a.ServerFails?)
    ensures Framed(s, a)
  {
  }

  lemma ExitFramed(s: State, a: Action)
    requires Enabled(s, a) && (a.ExitCancels? || a.ExitWaitReturns? || a.ExitCloses?)
    ensures Framed(s, a)
  {
  }

  lemma DrainedFramed(s: State, a: Action)
    requires Enabled(s, a) && (a.Drained? || a.ExitTakes?)
    ensures Framed(s, a)
  {
  }

  lemma GoroutineFramed(s: State, a: Action)
    requires Enabled(s, a) && GoroutineStep(a)
    ensures Framed(s, a)
  {
  }

  lemma OutsideFramed(s: State, a: Action)
    requires Enabled(s, a) && (a.Arrive? || a.Declare? || a.LoseHost?)
    ensures Framed(s, a)
  {
  }

  lemma StepFramed(s: State, a: Action)
    requires Enabled(s, a)
    ensures Framed(s, a)
  {
    hide Enabled, Next, Framed;
    if OfInit(a) { InitFramed(s, a); }
    else if OfStart(a) { StartFramed(s, a); }
    else if OfStop(a) { StopFramed(s, a); }
    else if a.Wake? || a.ServerFails? { WakeFramed(s, a); }
    else if a.Drained? || a.ExitTakes? { DrainedFramed(s, a); }
    else if OfExit(a) { ExitFramed(s, a); }
    else if GoroutineStep(a) { GoroutineFramed(s, a); }
    else { OutsideFramed(s, a); }
  }

  // ---- Runs taken apart ----

  lemma ReachableNext(s: State, a: Action)
    requires Reachable(s) && Enabled(s, a)
    ensures Reachable(Next(s, a).s)
  {
    hide Enabled, Next, Legal, After;
    StepFramed(s, a);
    var run :| Legal(Initial(s.id), run) && After(Initial(s.id), run) == s;
    OneMore(Initial(s.id), run, a);
  }

  lemma {:induction false} ReachesOn(s: State, run: seq<Action>)
    requires Reachable(s) && Legal(s, run)
    ensures Reachable(After(s, run))
    decreases |run|
  {
    hide Enabled, Next, Reachable;
    if run != [] {
      ReachableNext(s, run[0]);
      ReachesOn(Next(s, run[0]).s, run[1..]);
    }
  }

  // ---- serve leaves its select once and for all ----

  lemma {:induction false} NeverSelects(s: State, run: seq<Action>)
    requires Legal(s, run) && s.main != Select
    ensures After(s, run).main != Select
    decreases |run|
  {
    hide Enabled, Next;
    if run != [] {
      StepFramed(s, run[0]);
      NeverSelects(Next(s, run[0]).s, run[1..]);
    }
  }

  /** Whatever wakes serve, it never selects again: it drains its RPCs and exits. */
  lemma WakeIsFinal(s: State, cause: Cause, run: seq<Action>)
    requires Enabled(s, Wake(cause)) && Legal(Next(s, Wake(cause)).s, run)
    ensures Next(s, Wake(cause)).s.main == Draining && After(Next(s, Wake(cause)).s, run).main != Select
    ensures var s' := Next(s, Wake(cause)).s;
      && s'.shutdownToken == (s.shutdownToken && cause != ShutdownAsked)
      && s'.hostLostToken == (s.hostLostToken && cause != CoreLost)
  {
    NeverSelects(Next(s, Wake(cause)).s, run);
  }

  // ---- The exit completes ----

  function MainWork(main: MainPc): nat {
    match main
    case Select => 6
    case Draining => 5
    case ExitTake => 4
    case ExitCancel => 3
    case ExitWait => 2
    case ExitClose => 1
    case Gone(_) => 0
  }

  function HolderWork(holder: Holder): nat {
    match holder
    case Free => 0
    case InitCall(_) => 4
    case InitInterval(_) => 3
    case InitJobs => 2
    case InitAnswer => 1
    case StartCall => 3
    case StartJobs => 2
    case Launching(_) => 1
    case StopTake(_) => 5
    case StopCancel(_) => 4
    case StopWait(_) => 3
    case StopCall(_) => 2
  }

  /** The goroutines still to be launched, each with its steps to come; an idle host may get a watchdog. */
  function HostWork(c: Host, holder: Holder): nat {
    (if holder.Launching? then (if holder.next < Goroutines(c) then 6 * (Goroutines(c) - holder.next) else 0)
     else if c.started then 0
     else 6 * (|c.jobs| + 1))
    + Weight(c.gs)
  }

  /** A bound on the runtime's own steps until the process is gone, while nothing arrives. */
  function Work(s: State): nat {
    MainWork(s.main) + 11 * s.queued + HolderWork(s.holder) + s.posting
    + (if s.host.Some? then HostWork(s.host.value, s.holder) else 0)
  }

  /** Jobs that Module.Jobs returns on the way add theirs. */
  function NewWork(a: Action): nat { if a.RecordJobs? then 6 * |a.jobs| else 0 }

  /** Nothing outside can start anew: serve has left its select. */
  predicate Leaving(s: State) { s.main != Select && !s.main.Gone? }

  predicate LeavingOrGone(s: State) { Leaving(s) || s.main == Gone(0) }

  lemma WeightLaunch(gs: seq<Goroutine>, x: Goroutine)
    ensures Weight(gs + [x]) == Weight(gs) + PcWeight(x.pc)
  {
    assert (gs + [x])[..|gs|] == gs;
  }

  lemma CallInitWork(s: State, a: Action)
    requires StateInv(s) && Enabled(s, a) && Leaving(s) && a.CallInit?
    ensures Work(Next(s, a).s) + 1 <= Work(s) && Next(s, a).s.main == s.main
  {
    hide HostInv, MainInv, InitedInv, StartedInv, StoppedInv;
  }

  lemma InitReturnsWork(s: State, a: Action)
    requires Enabled(s, a) && Leaving(s) && a.InitReturns?
    ensures Work(Next(s, a).s) + 1 <= Work(s) && Next(s, a).s.main == s.main
  {
    hide Weight;
  }

  lemma RecordWork(s: State, a: Action)
    requires Enabled(s, a) && Leaving(s) && (a.RecordInterval? || a.RecordJobs? || a.AnswerInit?)
    ensures Work(Next(s, a).s) + 1 <= Work(s) + NewWork(a) && Next(s, a).s.main == s.main
  {
    hide Weight;
  }

  lemma InitWork(s: State, a: Action)
    requires StateInv(s) && Enabled(s, a) && Leaving(s) && OfInit(a)
    ensures Work(Next(s, a).s) + 1 <= Work(s) + NewWork(a) && Next(s, a).s.main == s.main
  {
    hide StateInv, Enabled, Next, Work;
    if a.CallInit? { CallInitWork(s, a); }
    else if a.InitReturns? { InitReturnsWork(s, a); }
    else { RecordWork(s, a); }
  }

  lemma StartWork(s: State, a: Action)
    requires StateInv(s) && Enabled(s, a) && Leaving(s) && (a.CallStart? || a.StartReturns?)
    ensures Work(Next(s, a).s) + 1 <= Work(s) && Next(s, a).s.main == s.main
  {
    hide Weight, StateInv;
  }

  lemma LaunchingWork(s: State)
    requires StateInv(s) && Enabled(s, BeginJobs) && Leaving(s)
    ensures Work(NextBeginJobs(s).s) + 1 <= Work(s) && NextBeginJobs(s).s.main == s.main
  {
    hide Weight, HostInv, MainInv, AllLaunched;
  }

  lemma LaunchedWork(s: State)
    requires StateInv(s) && Enabled(s, FinishStart) && Leaving(s)
    ensures Work(NextFinishStart(s).s) + 1 <= Work(s) && NextFinishStart(s).s.main == s.main
  {
    hide Weight, HostInv, MainInv, AllLaunched;
  }

  lemma LaunchWork(s: State, isJob: bool)
    requires StateInv(s) && Leaving(s) && s.holder.Launching? && s.host.Some?
    requires var c := s.host.value;
      if isJob then s.holder.next < |c.jobs| else s.holder.next == |c.jobs| && c.interval > 0
    ensures Work(NextLaunch(s, isJob).s) + 1 <= Work(s) && NextLaunch(s, isJob).s.main == s.main
  {
    hide Weight, StateInv;
    WeightLaunch(s.host.value.gs, Goroutine(isJob, if isJob then Fresh else Waiting, 0));
  }

  lemma StopWork(s: State, a: Action)
    requires Enabled(s, a) && Leaving(s) && (a.CallStop? || a.StopReturns? || a.PostToken?)
    ensures Work(Next(s, a).s) + 1 <= Work(s) && Next(s, a).s.main == s.main
  {
    hide Weight;
  }

  lemma StopJobsWork(s: State, a: Action)
    requires Enabled(s, a) && Leaving(s) && (a.TakeCancel? || a.CallCancel? || a.WaitReturns?)
    ensures Work(Next(s, a).s) + 1 <= Work(s) && Next(s, a).s.main == s.main
  {
    hide Weight;
  }

  lemma DrainedWork(s: State)
    requires Enabled(s, Drained) && Leaving(s)
    ensures Work(Next(s, Drained).s) + 1 <= Work(s) && LeavingOrGone(Next(s, Drained).s)
  {
    hide Weight;
  }

  lemma ExitTakesWork(s: State, a: Action)
    requires Enabled(s, a) && Leaving(s) && (a.ExitTakes? || a.ExitCancels?)
    ensures Work(Next(s, a).s) + 1 <= Work(s) && LeavingOrGone(Next(s, a).s)
  {
    hide Weight;
  }

  lemma ExitClosesWork(s: State, a: Action)
    requires Enabled(s, a) && Leaving(s) && (a.ExitWaitReturns? || a.ExitCloses?)
    ensures Work(Next(s, a).s) + 1 <= Work(s) && LeavingOrGone(Next(s, a).s)
  {
    hide Weight;
  }

  lemma ExitWork(s: State, a: Action)
    requires Enabled(s, a) && Leaving(s) && OfExit(a) && SystemStep(a)
    ensures Work(Next(s, a).s) + 1 <= Work(s) && LeavingOrGone(Next(s, a).s)
  {
    hide Enabled, Next, Work, LeavingOrGone;
    if a.Drained? { DrainedWork(s); }
    else if a.ExitTakes? || a.ExitCancels? { ExitTakesWork(s, a); }
    else { ExitClosesWork(s, a); }
  }

  lemma GoroutineWork(s: State, a: Action)
    requires Enabled(s, a) && GoroutineStep(a) && !a.TimerFires?
    ensures Work(Next(s, a).s) + 1 <= Work(s) && Next(s, a).s.main == s.main
  {
    hide Weight, NextGoroutine, Stepped;
    GoroutineStepsFinish(s, a);
    SteppedMoves(s, a);
    assert Next(s, a) == NextGoroutine(s, a);
  }

  /** Every step of the runtime or a goroutine brings the exit closer, whatever RPCs are still to be served. */
  lemma StepsLeave(s: State, a: Action)
    requires StateInv(s) && Enabled(s, a) && Leaving(s) && SystemStep(a)
    ensures Work(Next(s, a).s) + 1 <= Work(s) + NewWork(a)
    ensures LeavingOrGone(Next(s, a).s)
  {
    if GoroutineStep(a) {
      hide StateInv, Enabled, Next, Work;
      GoroutineWork(s, a);
    } else if a.LaunchNext? || a.LaunchWatchdog? {
      hide StateInv, Work, NextLaunch;
      LaunchWork(s, a.LaunchNext?);
    } else {
      StepsLeaveOther(s, a);
    }
  }

  lemma Beginning(s: State)
    requires StateInv(s) && Enabled(s, BeginJobs) && Leaving(s)
    ensures Work(Next(s, BeginJobs).s) + 1 <= Work(s) && Next(s, BeginJobs).s.main == s.main
  {
    hide StateInv, Work, NextBeginJobs;
    LaunchingWork(s);
  }

  lemma Finishing(s: State)
    requires StateInv(s) && Enabled(s, FinishStart) && Leaving(s)
    ensures Work(Next(s, FinishStart).s) + 1 <= Work(s) && Next(s, FinishStart).s.main == s.main
  {
    hide StateInv, Work, NextFinishStart;
    LaunchedWork(s);
  }

  lemma StepsLeaveOther(s: State, a: Action)
    requires StateInv(s) && Enabled(s, a) && Leaving(s) && SystemStep(a)
    requires !GoroutineStep(a) && !a.LaunchNext? && !a.LaunchWatchdog?
    ensures Work(Next(s, a).s) + 1 <= Work(s) + NewWork(a)
    ensures LeavingOrGone(Next(s, a).s)
  {
    hide StateInv, Enabled, Next, Work;
    if OfInit(a) { InitWork(s, a); }
    else if a.BeginJobs? { Beginning(s); }
    else if a.FinishStart? { Finishing(s); }
    else if a.CallStart? || a.StartReturns? { StartWork(s, a); }
    else if a.TakeCancel? || a.CallCancel? || a.WaitReturns? { StopJobsWork(s, a); }
    else if OfExit(a) { ExitWork(s, a); }
    else { StopWork(s, a); }
  }

  function NewWorkOf(run: seq<Action>): nat {
    if run == [] then 0 else NewWork(run[0]) + NewWorkOf(run[1..])
  }

  lemma {:induction false} LeavingRun(s: State, l: Ledger, run: seq<Action>)
    requires Inv(s, l) && LeavingOrGone(s)
    requires Legal(s, run) && forall a :: a in run ==> SystemStep(a)
    ensures |run| + Work(After(s, run)) <= Work(s) + NewWorkOf(run)
    ensures LeavingOrGone(After(s, run))
    decreases |run|
  {
    if run != [] {
      hide Inv, StateInv, Enabled, Next, Work, NewWork, SystemStep;
      var a, s1 := run[0], Next(s, run[0]).s;
      assert a in run && forall b :: b in run[1..] ==> b in run;
      NotGone(s, a);
      StateOf(s, l);
      StepsLeave(s, a);
      StepKeeps(s, l, a);
      var l1 := GoodState(l, Next(s, a));
      LeavingRun(s1, l1, run[1..]);
    }
  }

  lemma NotGone(s: State, a: Action)
    requires Enabled(s, a)
    ensures !s.main.Gone?
  {
  }

  lemma StateOf(s: State, l: Ledger)
    requires Inv(s, l)
    ensures StateInv(s)
  {
    hide StateInv;
  }

  /**
   * Once serve has left its select, every run of the runtime and its goroutines, with whichever RPCs are
   * still to be served and however callbacks answer, is over after a number of steps known in advance but
   * for the jobs declared on the way; and it can only be over with the process cleanly gone.
   */
  lemma EveryExitCompletes(s: State, run: seq<Action>)
    requires Reachable(s) && Leaving(s)
    requires Legal(s, run) && forall a :: a in run ==> SystemStep(a)
    ensures |run| <= Work(s) + NewWorkOf(run)
    ensures (forall a :: SystemStep(a) ==> !Enabled(After(s, run), a)) <==> After(s, run).main == Gone(0)
  {
    hide Inv, StateInv, Enabled, Next, Work, NewWork, SystemStep;
    var l := ReachableInv(s);
    LeavingRun(s, l, run);
    var s' := After(s, run);
    if s'.main != Gone(0) {
      ReachesOn(s, run);
      StillBusy(s');
      var a := NoDeadlock(s');
      assert SystemStep(a) && Enabled(s', a);
    } else {
      forall a | SystemStep(a) ensures !Enabled(s', a) {
        if Enabled(s', a) { NotGone(s', a); }
      }
    }
  }

  lemma StillBusy(s: State)
    requires Leaving(s)
    ensures Busy(s)
  {
  }

  /** Some run gets there from every state on the way. */
  lemma ExitCanComplete(s: State) returns (run: seq<Action>)
    requires Reachable(s) && Leaving(s)
    ensures Legal(s, run) && (forall a :: a in run ==> SystemStep(a)) && |run| <= Work(s)
    ensures After(s, run).main == Gone(0)
    decreases Work(s)
  {
    hide Inv, StateInv, Enabled, Next, Work, SystemStep, Reachable;
    var l := ReachableInv(s);
    StateOf(s, l);
    StillBusy(s);
    var a := NoDeadlock(s);
    assert NewWork(a) == 0;
    StepsLeave(s, a);
    OneStep(s, a);
    ReachesOn(s, [a]);
    var s1 := Next(s, a).s;
    if s1.main == Gone(0) {
      run := [a];
    } else {
      var rest := ExitCanComplete(s1);
      run := [a] + rest;
      assert run[1..] == rest;
    }
  }

  // ---- What wakes serve ----

  lemma {:induction false} TokensAfter(s: State, run: seq<Action>)
    requires Legal(s, run) && After(s, run).main == Select
    ensures s.main == Select
    ensures After(s, run).shutdownToken <==> s.shutdownToken || SHUTDOWN_DONE in TraceOf(s, run)
    ensures After(s, run).hostLostToken <==> s.hostLostToken || LoseHost in run
    decreases |run|
  {
    hide Enabled, Next;
    if run != [] {
      TokensAfter(Next(s, run[0]).s, run[1..]);
      StepFramed(s, run[0]);
      assert run == [run[0]] + run[1..];
    }
  }

  /**
   * While serve selects, a shutdown request waits for it exactly if some Shutdown RPC has answered OK, and
   * a lost core exactly if the connection was lost; so it wakes for these reasons, or a signal, and no other.
   */
  lemma WakesExactly(id: string, run: seq<Action>)
    requires Legal(Initial(id), run) && After(Initial(id), run).main == Select
    ensures var s, t := After(Initial(id), run), TraceOf(Initial(id), run);
      && (Enabled(s, Wake(ShutdownAsked)) <==> SHUTDOWN_DONE in t)
      && (Enabled(s, Wake(CoreLost)) <==> LoseHost in run)
      && Enabled(s, Wake(Signal))
  {
    hide Next, Legal, After, TraceOf;
    TokensAfter(Initial(id), run);
  }

  /** The connection is watched, and so can be lost, only once Module.Init has succeeded on it. */
  lemma LostOnlyAfterInit(id: string, run: seq<Action>)
    requires Legal(Initial(id), run) && Enabled(After(Initial(id), run), LoseHost)
    ensures var s := After(Initial(id), run);
      s.host.Some? && InitOk(|s.dropped|) in TraceOf(Initial(id), run)
  {
    hide Inv, Ordered, Next, Enabled, TL.FlagsFor;
    var s, t := After(Initial(id), run), TraceOf(Initial(id), run);
    EveryRunIsOrdered(id, run);
    TL.Flags(t);
    CanBeLost(s, LedgerOf(t));
    InitOkIn(LedgerOf(t), t, |s.dropped|);
  }

  lemma CanBeLost(s: State, l: Ledger)
    requires Inv(s, l) && Enabled(s, LoseHost)
    ensures s.host.Some? && l.initOk == Some(|s.dropped|)
  {
    hide StateInv, GoroutinesMirror, SurfacesMirror;
  }

  lemma InitOkIn(l: Ledger, t: Trace, h: nat)
    requires TL.FlagsFor(l, t) && l.initOk == Some(h)
    ensures InitOk(h) in t
  {
  }
}
