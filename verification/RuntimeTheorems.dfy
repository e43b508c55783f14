/** The main results about the module runtime, over every run from a fresh process. */
module RuntimeTheorems {
  import opened Common
  import opened RuntimeTrace
  import opened Runtime
  import opened RuntimeInvariant
  import opened RuntimeRuns
  import TL = TraceLanguage

  /** The lifecycle trace language. */
  lemma LifecycleLanguage(id: string, run: seq<Action>, i: nat, j: nat)
    requires Legal(Initial(id), run) && i < j < |TraceOf(Initial(id), run)|
    ensures
      var t := TraceOf(Initial(id), run);
      && !(t[i].InitOk? && t[j].InitOk?) && !(t[i] == StartOk && t[j] == StartOk) && !(t[i] == StopOk && t[j] == StopOk)
      && (t[j] == StartBegin ==> exists e :: e in t[..j] && e.InitOk?)
      && (t[j] == StopBegin ==> StartOk in t[..j])
      && (t[i] == StopOk || t[i] == StopNoop ==>
            !t[j].InitBegin? && t[j] != StartBegin && t[j] != StopBegin && !t[j].Launched?)
  {
    hide Inv, Ordered, Next, Enabled;
    var t := TraceOf(Initial(id), run);
    EveryRunIsOrdered(id, run);
    TL.SuccessOnce(t, i, j);
    TL.CallsInOrder(t, j);
    if t[i] == StopOk || t[i] == StopNoop { TL.StoppedAbsorbs(t, i, j); }
  }

  /** Job quiescence: where runs may lie relative to Module.Start, Module.Stop and the Stop and Shutdown answers. */
  lemma JobQuiescence(id: string, run: seq<Action>, j: nat)
    requires Legal(Initial(id), run) && j < |TraceOf(Initial(id), run)|
    ensures
      var t := TraceOf(Initial(id), run);
      && (t[j].RunBegin? ==> StartOk in t[..j] && TL.Runs(t[..j], t[j].g) == TL.Ends(t[..j], t[j].g))
      && (TL.StopMark(t[j]) ==>
            && (forall k :: j < k < |t| ==> !TL.JobEvent(t[k]))
            && (forall g: nat :: Launched(g) in t[..j] ==> Ended(g) in t[..j])
            && (forall g: nat :: TL.Runs(t[..j], g) == TL.Ends(t[..j], g)))
      && (t[j] == StopBegin ==>
            forall jobs, k: nat :: JobsAdded(jobs) in t[..j] && k < |jobs| ==> RunEnd(k) in t[..j])
      && (t[j] == Exited(0) ==>
            && (forall g: nat :: Launched(g) in t[..j] ==> Ended(g) in t[..j])
            && (forall g: nat :: TL.Runs(t[..j], g) == TL.Ends(t[..j], g))
            && (Returned(StartRpc, OK) in t[..j] ==>
                  forall jobs, k: nat :: JobsAdded(jobs) in t[..j] && k < |jobs| ==> RunEnd(k) in t[..j]))
  {
    hide Inv, Ordered, Next, Enabled;
    var t := TraceOf(Initial(id), run);
    EveryRunIsOrdered(id, run);
    if t[j].RunBegin? { TL.RunsAfterStart(t, j, t[j].g); }
    if TL.StopMark(t[j]) {
      forall k | j < k < |t| ensures !TL.JobEvent(t[k]) { TL.QuietAfterStop(t, j, k); }
      forall g: nat ensures Launched(g) in t[..j] ==> Ended(g) in t[..j] { TL.NothingLiveAtStop(t, j, g); }
      forall g: nat ensures TL.Runs(t[..j], g) == TL.Ends(t[..j], g) { TL.NothingLiveAtStop(t, j, g); }
    }
    if t[j] == StopBegin {
      forall jobs, k: nat | JobsAdded(jobs) in t[..j] && k < |jobs| ensures RunEnd(k) in t[..j] {
        TL.EveryJobRanAtStop(t, j, jobs, k);
      }
    }
    if t[j] == Exited(0) {
      forall g: nat ensures Launched(g) in t[..j] ==> Ended(g) in t[..j] { TL.EveryJobRanAtExit(t, j, g, [], 0); }
      forall g: nat ensures TL.Runs(t[..j], g) == TL.Ends(t[..j], g) { TL.EveryJobRanAtExit(t, j, g, [], 0); }
      forall jobs, k: nat | Returned(StartRpc, OK) in t[..j] && JobsAdded(jobs) in t[..j] && k < |jobs|
        ensures RunEnd(k) in t[..j]
      {
        TL.StartedLaunched(t, j, jobs, k);
        TL.EveryJobRanAtExit(t, j, k, jobs, k);
      }
    }
  }

  /** A state some run reaches. */
  ghost predicate Reachable(s: State) {
    exists run :: Legal(Initial(s.id), run) && After(Initial(s.id), run) == s
  }

  lemma ReachableInv(s: State) returns (l: Ledger)
    requires Reachable(s)
    ensures Inv(s, l)
  {
    hide Inv, Ordered, Next, Enabled;
    var run :| Legal(Initial(s.id), run) && After(Initial(s.id), run) == s;
    EveryRunIsOrdered(s.id, run);
    l := LedgerOf(TraceOf(Initial(s.id), run));
  }

  /**
   * Host connections are conserved: opened minus closed is 1 exactly while a host is retained,
   * failed attempts leave closed and unused hostClients, and a clean exit leaves nothing open or running.
   */
  lemma ConnectionConservation(id: string, run: seq<Action>)
    requires Legal(Initial(id), run)
    ensures
      var s, t := After(Initial(id), run), TraceOf(Initial(id), run);
      && TL.OpenedIn(t) == TL.ClosedIn(t) + (if s.host.Some? && s.main != Gone(0) then 1 else 0)
      && (s.phase == Inited || s.phase == Started ==> s.host.Some?)
      && (s.host.Some? ==> s.host.value.open == (s.main != Gone(0)))
      && (forall h :: 0 <= h < |s.dropped| ==>
            var c := s.dropped[h]; !c.open && !c.started && c.jobs == [] && c.interval == 0 && c.gs == [])
      && (s.main == Gone(0) ==> TL.OpenedIn(t) == TL.ClosedIn(t) && (s.host.Some? ==> s.host.value.wg == 0))
  {
    var s, t := After(Initial(id), run), TraceOf(Initial(id), run);
    EveryRunIsOrdered(id, run) by { hide Inv, Ordered, Next, Enabled; }
    TL.CountsAccount(t) by { hide Inv, Ordered, Next, Enabled; }
    if s.host.Some? { LiveZero(s.host.value.gs); }
  }

  /** Which requests Init takes to the module, and with which code it refuses each other one. */
  lemma InitVerdictExactly(id: string, phase: Phase, req: InitRequest, configOk: bool, dialOk: bool)
    ensures var code := InitVerdict(id, phase, req, configOk, dialOk);
      var acceptable := phase == Created && req.moduleId == id && req.protocol == 1;
      && (code == OK <==> acceptable && configOk && dialOk)
      && (code == FailedPrecondition <==> !acceptable)
      && (code == InvalidArgument <==> acceptable && !configOk)
      && (code == Unavailable <==> acceptable && configOk && !dialOk)
  {
  }

  /**
   * What Init answers: the surfaces declared so far on the connection of the successful attempt, and on no
   * other; a later Declare is refused exactly once that connection's jobs have been started.
   */
  lemma InitAnswers(id: string, run: seq<Action>, j: nat)
    requires Legal(Initial(id), run) && j < |TraceOf(Initial(id), run)|
    ensures
      var t := TraceOf(Initial(id), run);
      && (t[j].InitAnswered? ==>
            && t[j].surfaces == TL.SurfacesOf(t[..j], t[j].h) && InitOk(t[j].h) in t[..j]
            && forall x :: x in t[j].surfaces <==>
                 exists i :: 0 <= i < j && t[i].Declared? && t[i].h == t[j].h && x in t[i].surfaces)
      && (t[j].Declared? ==> JobsStarting(t[j].h) !in t[..j])
      && (t[j].DeclareRefused? ==> JobsStarting(t[j].h) in t[..j])
  {
    hide Inv, Ordered, Next, Enabled;
    var t := TraceOf(Initial(id), run);
    EveryRunIsOrdered(id, run);
    if t[j].InitAnswered? {
      TL.SurfacesAnswered(t, j);
      forall x ensures x in t[j].surfaces <==>
                       exists i :: 0 <= i < j && t[i].Declared? && t[i].h == t[j].h && x in t[i].surfaces
      {
        TL.SurfaceDeclared(t[..j], t[j].h, x);
        assert forall i :: 0 <= i < j ==> t[..j][i] == t[i];
      }
    }
    TL.DeclareRefusedAfterStart(t, j);
  }

  lemma OneStep(s: State, a: Action)
    requires Enabled(s, a)
    ensures Legal(s, [a]) && After(s, [a]) == Next(s, a).s && TraceOf(s, [a]) == Next(s, a).events
  {
    hide Enabled, Next;
    var rest := [a][1..];
    assert rest == [] && Legal(Next(s, a).s, rest) && TraceOf(Next(s, a).s, rest) == [];
  }

  lemma {:induction false} OneMore(s: State, run: seq<Action>, a: Action)
    requires Legal(s, run) && Enabled(After(s, run), a)
    ensures Legal(s, run + [a]) && After(s, run + [a]) == Next(After(s, run), a).s
    ensures TraceOf(s, run + [a]) == TraceOf(s, run) + Next(After(s, run), a).events
    decreases |run|
  {
    hide Enabled, Next;
    if run == [] {
      assert run + [a] == [a];
      OneStep(s, a);
    } else {
      OneMore(Next(s, run[0]).s, run[1..], a);
      assert (run + [a])[1..] == run[1..] + [a];
    }
  }

  /** One more action, with the state and the events it leads to. */
  lemma Extend(start: State, run: seq<Action>, s: State, a: Action, s': State, events: Trace)
    returns (run': seq<Action>)
    requires Legal(start, run) && After(start, run) == s && Enabled(s, a) && Next(s, a) == Step(s', events)
    ensures Legal(start, run') && After(start, run') == s'
    ensures TraceOf(start, run') == TraceOf(start, run) + events
  {
    OneMore(start, run, a);
    run' := run + [a];
  }

  /** Up to Module.Init's success, from a process that just started. */
  lemma FreshInit(id: string) returns (run: seq<Action>)
    ensures Legal(Initial(id), run) && TraceOf(Initial(id), run) == [InitBegin(0), InitOk(0)]
    ensures After(Initial(id), run)
            == Initial(id).(host := Some(NEW_HOST), phase := Inited, holder := InitInterval(0))
  {
    var s0 := Initial(id);
    var s1 := s0.(queued := 1);
    var s2 := s0.(host := Some(NEW_HOST), holder := InitCall(0));
    run := Extend(s0, [], s0, Arrive, s1, []);
    run := Extend(s0, run, s1, CallInit(InitRequest(id, PROTOCOL, 0), true, true), s2, [InitBegin(0)]);
    run := Extend(s0, run, s2, InitReturns(true), s2.(phase := Inited, holder := InitInterval(0)), [InitOk(0)]);
  }

  /** Up to its answer. */
  lemma FreshAnswer(id: string) returns (run: seq<Action>)
    ensures Legal(Initial(id), run)
    ensures TraceOf(Initial(id), run)
            == [InitBegin(0), InitOk(0), IntervalSet(0), JobsAdded([]), InitAnswered(0, []), Returned(InitRpc, OK)]
    ensures After(Initial(id), run) == Initial(id).(host := Some(NEW_HOST), phase := Inited)
  {
    var s0 := Initial(id);
    var s6 := s0.(host := Some(NEW_HOST), phase := Inited);
    var s3, s4, s5 := s6.(holder := InitInterval(0)), s6.(holder := InitJobs), s6.(holder := InitAnswer);
    run := FreshInit(id);
    run := Extend(s0, run, s3, RecordInterval, s4, [IntervalSet(0)]);
    assert NEW_HOST.jobs + [] == [];
    run := Extend(s0, run, s4, RecordJobs([]), s5, [JobsAdded([])]);
    run := Extend(s0, run, s5, AnswerInit, s6, [InitAnswered(0, []), Returned(InitRpc, OK)]);
  }

  /** Declare is not refused as soon as Init has answered: what it accepts then, no answer carries. */
  lemma DeclareAfterAnswer(id: string, surfaces: seq<Surface>) returns (run: seq<Action>)
    ensures Legal(Initial(id), run)
    ensures TraceOf(Initial(id), run) ==
      [InitBegin(0), InitOk(0), IntervalSet(0), JobsAdded([]), InitAnswered(0, []), Returned(InitRpc, OK),
       Declared(0, surfaces)]
    ensures After(Initial(id), run).host == Some(NEW_HOST.(surfaces := surfaces))
  {
    var s0 := Initial(id);
    var s6 := s0.(host := Some(NEW_HOST), phase := Inited);
    run := FreshAnswer(id);
    assert [] + surfaces == surfaces;
    run := Extend(s0, run, s6, Declare(0, surfaces), s6.(host := Some(NEW_HOST.(surfaces := surfaces))),
                  [Declared(0, surfaces)]);
  }

  /**
   * What Start's OK stands for: exactly one goroutine launched for each declared job, in order, and one more
   * for the watchdog if Init asked for it.
   */
  lemma StartLaunchesAll(id: string, run: seq<Action>, j: nat, jobs: seq<Job>, seconds: nat)
    requires Legal(Initial(id), run) && j < |TraceOf(Initial(id), run)|
    requires var t := TraceOf(Initial(id), run);
      t[j] == Returned(StartRpc, OK) && JobsAdded(jobs) in t[..j] && IntervalSet(seconds) in t[..j]
    ensures
      var t := TraceOf(Initial(id), run);
      && TL.LaunchedIn(t[..j]) == |jobs| + (if seconds > 0 then 1 else 0)
      && (forall g: nat :: Launched(g) in t[..j] <==> g < TL.LaunchedIn(t[..j]))
  {
    hide Inv, Ordered, Next, Enabled;
    EveryRunIsOrdered(id, run);
    TL.EveryoneLaunched(TraceOf(Initial(id), run), j, jobs, seconds);
  }

  /** The WaitGroup counts the live goroutines; a shutdown token is posted only once the module is stopped. */
  lemma WaitGroupCounts(s: State)
    requires Reachable(s)
    ensures s.host.Some? ==> s.host.value.wg == Live(s.host.value.gs)
    ensures s.shutdownToken || s.posting > 0 ==> s.phase == Stopped
    ensures s.host.Some? && s.host.value.locked ==> s.holder.Launching?
    ensures Exiting(s) ==> s.holder == Free && s.queued == 0  // so serve's stopJobs never meets an RPC's
  {
    var l := ReachableInv(s);
  }

  // ---- Progress ----

  /** Steps of the runtime itself, as against requests, signals, timers and module calls of Declare. */
  predicate SystemStep(a: Action) {
    !a.Arrive? && !a.Declare? && !a.LoseHost? && !a.Wake? && !a.ServerFails? && !a.TimerFires?
  }

  lemma SomeLive(gs: seq<Goroutine>) returns (g: nat)
    requires Live(gs) > 0
    ensures g < |gs| && gs[g].pc != Done
  {
    g := |gs| - 1;
    if gs[g].pc == Done { g := SomeLive(gs[..|gs| - 1]); }
  }

  /** After cancellation every live goroutine has a step of its own. */
  function OwnStep(g: nat, pc: Pc): Action {
    match pc
    case Fresh => RunBegins(g)
    case Running => RunEnds(g)
    case Deciding => Decide(g, true)
    case _ => SeesCancel(g)
  }

  /** Somebody holds mu, waits for it, or has a token to post, or serve is past its select. */
  predicate Busy(s: State) {
    !s.main.Gone? && (s.holder != Free || s.queued > 0 || s.posting > 0 || s.main != Select)
  }

  /** The next step of whoever must move. */
  function NextOf(s: State): Action {
    match s.holder
    case InitCall(_) => InitReturns(true)
    case InitInterval(_) => RecordInterval
    case InitJobs => RecordJobs([])
    case InitAnswer => AnswerInit
    case StartCall => StartReturns(true)
    case StartJobs => BeginJobs
    case Launching(n) =>
      if s.host.None? || n == Goroutines(s.host.value) then FinishStart
      else if n < |s.host.value.jobs| then LaunchNext else LaunchWatchdog
    case StopTake(_) => TakeCancel
    case StopCancel(_) => CallCancel
    case StopWait(_) => WaitReturns
    case StopCall(_) => StopReturns(true)
    case Free =>
      if s.queued > 0 then CallStart else if s.posting > 0 then PostToken
      else match s.main
           case ExitTake => ExitTakes
           case ExitCancel => ExitCancels
           case ExitWait => ExitWaitReturns
           case ExitClose => ExitCloses
           case _ => Drained
  }

  /** Blocked in jobWG.Wait with goroutines still live. */
  predicate WaitingForJobs(s: State) {
    !s.main.Gone? && (s.holder.StopWait? || s.main == ExitWait) && s.host.Some? && s.host.value.wg != 0
  }

  /** Except while it waits for jobs, whoever must move can. */
  lemma HolderMoves(s: State)
    requires StateInv(s) && Busy(s) && !WaitingForJobs(s)
    ensures Enabled(s, NextOf(s))
  {
  }

  /** While it waits, the jobs' context is cancelled and it holds no hostClient lock. */
  lemma WaitersCancelled(s: State)
    requires StateInv(s) && WaitingForJobs(s)
    ensures s.host.value.ctxDone && !s.host.value.locked && s.host.value.wg == Live(s.host.value.gs)
    ensures s.phase == Started && (s.main == ExitWait ==> s.holder == Free)
  {
  }

  /** While somebody waits, some live goroutine has a step that is not a timer. */
  lemma GoroutineMoves(s: State) returns (a: Action)
    requires StateInv(s) && WaitingForJobs(s)
    ensures Enabled(s, a) && GoroutineStep(a) && !a.TimerFires?
  {
    hide PhaseInv, MainInv, HostInv;
    WaitersCancelled(s);
    var g := SomeLive(s.host.value.gs);
    a := OwnStep(g, s.host.value.gs[g].pc);
  }

  /** Deadlock freedom: in every reachable busy state some step of the runtime or of a job is enabled. */
  lemma NoDeadlock(s: State) returns (a: Action)
    requires Reachable(s) && Busy(s)
    ensures SystemStep(a) && Enabled(s, a) && (a.RecordJobs? ==> a.jobs == [])
    ensures WaitingForJobs(s) ==> GoroutineStep(a)
  {
    hide StateInv, LifecycleMirror, GoroutinesMirror, Enabled, Legal;
    var l := ReachableInv(s);
    if WaitingForJobs(s) {
      a := GoroutineMoves(s);
    } else {
      HolderMoves(s);
      a := NextOf(s);
    }
  }

  // ---- Stop can always complete ----

  /** Steps, timers aside, until a goroutine at `pc` has ended. */
  function PcWeight(pc: Pc): nat {
    match pc
    case Fresh => 4
    case Running => 3
    case Deciding => 2
    case Waiting => 1
    case Done => 0
  }

  function Weight(gs: seq<Goroutine>): nat {
    if gs == [] then 0 else Weight(gs[..|gs| - 1]) + PcWeight(gs[|gs| - 1].pc)
  }

  /** Nothing is left to do exactly when every goroutine has ended. */
  lemma {:induction false} WeightZero(gs: seq<Goroutine>)
    ensures Weight(gs) == 0 <==> AllDone(gs)
    ensures Weight(gs) == 0 <==> Live(gs) == 0
  {
    LiveZero(gs);
    if gs != [] {
      WeightZero(gs[..|gs| - 1]);
      assert forall g :: 0 <= g < |gs| - 1 ==> gs[..|gs| - 1][g] == gs[g];
    }
  }

  lemma {:induction false} WeightUpdate(gs: seq<Goroutine>, g: nat, x: Goroutine)
    requires g < |gs|
    ensures Weight(gs[g := x]) + PcWeight(gs[g].pc) == Weight(gs) + PcWeight(x.pc)
  {
    hide PcWeight;
    var n := |gs| - 1;
    if g == n {
      assert gs[g := x][..n] == gs[..n];
    } else {
      WeightUpdate(gs[..n], g, x);
      assert gs[g := x][..n] == gs[..n][g := x];
    }
  }

  /** What a step of its own makes of a goroutine that is not waiting for its timer. */
  function Stepped(x: Goroutine, a: Action): (y: Goroutine)
    ensures y.isJob == x.isJob && y.runs >= x.runs
  {
    if a.RunBegins? then x.(pc := Running)
    else if a.RunEnds? then x.(pc := Deciding, runs := x.runs + 1)
    else if a.Decide? && a.again then x.(pc := Waiting)
    else x.(pc := Done)
  }

  lemma SteppedMoves(s: State, a: Action)
    requires GoroutineStep(a) && !a.TimerFires? && s.host.Some? && a.g < |s.host.value.gs|
    ensures NextGoroutine(s, a).s == MoveGoroutine(s, a.g, Stepped(s.host.value.gs[a.g], a))
  {
  }

  lemma MoveFinishes(s: State, a: Action)
    requires GoroutineStep(a) && !a.TimerFires? && s.host.Some? && a.g < |s.host.value.gs|
    requires var pc := s.host.value.gs[a.g].pc;
      if a.RunBegins? then pc == Fresh else if a.RunEnds? then pc == Running
      else if a.Decide? then pc == Deciding else pc == Waiting
    ensures var s' := NextGoroutine(s, a).s;
      && s'.host.Some? && Weight(s'.host.value.gs) < Weight(s.host.value.gs)
      && s'.holder == s.holder && s'.main == s.main && s'.phase == s.phase
  {
    hide Weight, NextGoroutine;
    SteppedMoves(s, a);
    WeightUpdate(s.host.value.gs, a.g, Stepped(s.host.value.gs[a.g], a));
  }

  /** Every step of a goroutine but a timer brings it closer to its end, and disturbs nobody waiting for it. */
  lemma GoroutineStepsFinish(s: State, a: Action)
    requires Enabled(s, a) && GoroutineStep(a) && !a.TimerFires?
    ensures var s' := Next(s, a).s;
      && s'.host.Some? && Weight(s'.host.value.gs) < Weight(s.host.value.gs)
      && s'.holder == s.holder && s'.main == s.main && s'.phase == s.phase
  {
    hide NextGoroutine, Weight;
    MoveFinishes(s, a);
    assert Next(s, a) == NextGoroutine(s, a);
  }

  /** A state in which stopJobs waits for the WaitGroup. */
  predicate Waits(s: State) { !s.main.Gone? && (s.holder.StopWait? || s.main == ExitWait) && s.host.Some? }

  /** `run` is goroutine steps without a timer, and leaves the same waiter facing an empty WaitGroup. */
  ghost predicate Finishes(s: State, run: seq<Action>)
    requires Waits(s)
  {
    && Legal(s, run) && |run| <= Weight(s.host.value.gs)
    && (forall a :: a in run ==> GoroutineStep(a) && !a.TimerFires?)
    && var s' := After(s, run);
       Waits(s') && s'.host.value.wg == 0 && s'.holder == s.holder && s'.main == s.main
  }

  lemma {:induction false} JobsCanFinish(s: State, l: Ledger) returns (run: seq<Action>)
    requires Inv(s, l) && Waits(s)
    ensures Finishes(s, run)
    decreases Weight(s.host.value.gs)
  {
    hide StateInv, LifecycleMirror, GoroutinesMirror, Next, Enabled;
    if s.host.value.wg == 0 {
      run := [];
    } else {
      var a := GoroutineMoves(s);
      StepKeeps(s, l, a);
      GoroutineStepsFinish(s, a);
      var l' := GoodState(l, Next(s, a));
      var rest := JobsCanFinish(Next(s, a).s, l');
      run := [a] + rest;
      assert run[1..] == rest;
    }
  }

  lemma GoodState(l: Ledger, step: Step) returns (l': Ledger)
    requires Good(l, step)
    ensures Inv(step.s, l')
  {
    hide Inv, Allowed, Advance;
    var es := step.events;
    l' := if |es| == 0 then l else if |es| == 1 then Advance(l, es[0]) else Advance(Advance(l, es[0]), es[1]);
  }

  /**
   * Every schedule of goroutine steps, timers aside, is over after at most `Weight` of them, and leaves
   * whoever waits where it is.
   */
  lemma {:induction false} EveryScheduleEnds(s: State, run: seq<Action>)
    requires Legal(s, run) && s.host.Some? && forall a :: a in run ==> GoroutineStep(a) && !a.TimerFires?
    ensures var s' := After(s, run);
      && s'.host.Some? && |run| + Weight(s'.host.value.gs) <= Weight(s.host.value.gs)
      && s'.holder == s.holder && s'.main == s.main
    decreases |run|
  {
    if run != [] {
      hide Enabled, Next, Weight;
      assert run[0] in run && forall a :: a in run[1..] ==> a in run;
      GoroutineStepsFinish(s, run[0]);
      EveryScheduleEnds(Next(s, run[0]).s, run[1..]);
    }
  }

  lemma {:induction false} RunKeepsState(s: State, l: Ledger, run: seq<Action>)
    requires Inv(s, l) && Legal(s, run)
    ensures StateInv(After(s, run))
    decreases |run|
  {
    hide StateInv, Next, Enabled;
    if run != [] {
      StepKeeps(s, l, run[0]);
      var l' := GoodState(l, Next(s, run[0]));
      RunKeepsState(Next(s, run[0]).s, l', run[1..]);
    }
  }

  /**
   * Where such a schedule can go no further, the wait is over: in whichever order the goroutines move, Stop
   * returns.
   */
  lemma EveryScheduleFinishes(s: State, run: seq<Action>)
    requires Reachable(s) && Waits(s)
    requires Legal(s, run) && forall a :: a in run ==> GoroutineStep(a) && !a.TimerFires?
    requires forall a :: Enabled(After(s, run), a) ==> !GoroutineStep(a) || a.TimerFires?
    ensures Finishes(s, run)
  {
    hide StateInv, Next, Enabled;
    var l := ReachableInv(s);
    RunKeepsState(s, l, run);
    EveryScheduleEnds(s, run);
    var s' := After(s, run);
    if s'.host.value.wg != 0 { var a := GoroutineMoves(s'); }
  }

  /** From every reachable state in which Stop or the exit path waits, its jobs can finish without it. */
  lemma StopCanComplete(s: State) returns (run: seq<Action>)
    requires Reachable(s) && Waits(s)
    ensures Finishes(s, run)
  {
    hide Inv, Finishes, Legal;
    var l := ReachableInv(s);
    run := JobsCanFinish(s, l);
  }
}
