/** From single steps to whole runs: every run keeps the invariant and stays in the trace language. */
module RuntimeRuns {
  import opened Common
  import opened RuntimeTrace
  import opened Runtime
  import opened RuntimeInvariant

  lemma StepCallInit(s: State, l: Ledger, a: Action)
    requires Inv(s, l) && Enabled(s, a) && a.CallInit?
    ensures Good(l, Next(s, a))
  {
    hide Inv, Allowed, Advance;
    if InitVerdict(s.id, s.phase, a.req, a.configOk, a.dialOk) != OK {
      KeepsInitRefused(s, l, a.req, a.configOk, a.dialOk);
    } else {
      KeepsInitBegins(s, l, a.req);
    }
  }

  lemma StepInit(s: State, l: Ledger, a: Action)
    requires Inv(s, l) && Enabled(s, a) && (a.RecordInterval? || a.RecordJobs? || a.AnswerInit?)
    ensures Good(l, Next(s, a))
  {
    hide Inv, Allowed, Advance;
    if a.RecordInterval? { KeepsRecordInterval(s, l); }
    else if a.RecordJobs? { KeepsRecordJobs(s, l, a.jobs); }
    else { KeepsAnswerInit(s, l); }
  }

  lemma StepCallbackReturns(s: State, l: Ledger, a: Action)
    requires Inv(s, l) && Enabled(s, a) && (a.InitReturns? || a.StartReturns?)
    ensures Good(l, Next(s, a))
  {
    hide Inv, Allowed, Advance;
    if a.InitReturns? {
      if a.ok { KeepsInitSucceeds(s, l); } else { KeepsInitFails(s, l); }
    } else {
      if a.ok { KeepsStartSucceeds(s, l); } else { KeepsStartFails(s, l); }
    }
  }

  lemma StepCallStart(s: State, l: Ledger, a: Action)
    requires Inv(s, l) && Enabled(s, a) && (a.CallStart? || a.BeginJobs?)
    ensures Good(l, Next(s, a))
  {
    hide Inv, Allowed, Advance;
    if a.BeginJobs? { KeepsBeginJobs(s, l); }
    else if s.phase == Inited { KeepsStartBegins(s, l); }
    else { KeepsStartRefused(s, l); }
  }

  lemma StepLaunch(s: State, l: Ledger, a: Action)
    requires Inv(s, l) && Enabled(s, a) && (a.LaunchNext? || a.LaunchWatchdog? || a.FinishStart?)
    ensures Good(l, Next(s, a))
  {
    hide Inv, Allowed, Advance;
    if a.LaunchNext? { KeepsLaunch(s, l, true); }
    else if a.LaunchWatchdog? { KeepsLaunch(s, l, false); }
    else { KeepsFinishStart(s, l); }
  }

  lemma StepCallStop(s: State, l: Ledger, a: Action)
    requires Inv(s, l) && Enabled(s, a) && a.CallStop?
    ensures Good(l, Next(s, a))
  {
    hide Inv, Allowed, Advance;
    if s.phase == Started { KeepsStopTakesLock(s, l, a.shutdown); }
    else if a.shutdown { AllowsShutdownNoop(s, l); KeepsShutdownNoop(s, l); }
    else { AllowsStopNoop(s, l); KeepsStopNoop(s, l); }
  }

  lemma StepStopJobs(s: State, l: Ledger, a: Action)
    requires Inv(s, l) && Enabled(s, a) && (a.TakeCancel? || a.CallCancel? || a.WaitReturns?)
    ensures Good(l, Next(s, a))
  {
    hide Inv, Allowed, Advance;
    if a.CallCancel? { KeepsCallCancel(s, l); }
    else if a.WaitReturns? { KeepsWaitReturns(s, l); }
    else if s.host.value.cancelSet { KeepsTakeCancel(s, l); }
    else { KeepsNothingToCancel(s, l); }
  }

  lemma StepStopReturns(s: State, l: Ledger, a: Action)
    requires Inv(s, l) && Enabled(s, a) && (a.StopReturns? || a.PostToken?)
    ensures Good(l, Next(s, a))
  {
    hide Inv, Allowed, Advance;
    if a.PostToken? { KeepsPostToken(s, l); }
    else if !a.ok { AllowsStopFails(s, l); KeepsStopFails(s, l); }
    else if s.holder.shutdown { KeepsShutdownSucceeds(s, l); }
    else { AllowsStopSucceeds(s, l); KeepsStopSucceeds(s, l); }
  }

  lemma StepDeclare(s: State, l: Ledger, a: Action)
    requires Inv(s, l) && Enabled(s, a) && a.Declare?
    ensures Good(l, Next(s, a))
  {
    hide Inv, Allowed, Advance;
    if a.h < |s.dropped| { KeepsDeclareDropped(s, l, a.h, a.surfaces); }
    else if s.host.value.started { KeepsDeclareRefused(s, l); }
    else { KeepsDeclare(s, l, a.surfaces); }
  }

  lemma StepRun(s: State, l: Ledger, a: Action)
    requires Inv(s, l) && Enabled(s, a) && (a.RunBegins? || a.RunEnds? || a.Decide?)
    ensures Good(l, Next(s, a))
  {
    hide Inv, Allowed, Advance;
    if a.RunBegins? { KeepsRunBegins(s, l, a.g); }
    else if a.RunEnds? { KeepsRunEnds(s, l, a.g); }
    else if a.again { KeepsDecideAgain(s, l, a.g); }
    else { KeepsDecideEnd(s, l, a.g); }
  }

  lemma StepSelect(s: State, l: Ledger, a: Action)
    requires Inv(s, l) && Enabled(s, a) && (a.TimerFires? || a.SeesCancel?)
    ensures Good(l, Next(s, a))
  {
    hide Inv, Allowed, Advance;
    if a.SeesCancel? { KeepsSeesCancel(s, l, a.g); }
    else if s.host.value.gs[a.g].isJob { KeepsTimerFires(s, l, a.g); }
  }

  lemma StepEnvironment(s: State, l: Ledger, a: Action)
    requires Inv(s, l) && Enabled(s, a) && (a.Arrive? || a.LoseHost? || a.Wake? || a.ServerFails?)
    ensures Good(l, Next(s, a))
  {
    hide Inv, Allowed, Advance;
    if a.Arrive? { KeepsArrive(s, l); }
    else if a.LoseHost? { KeepsLoseHost(s, l); }
    else if a.Wake? { KeepsWake(s, l, a.cause); }
    else { KeepsServerFails(s, l); }
  }

  lemma StepDrained(s: State, l: Ledger, a: Action)
    requires Inv(s, l) && Enabled(s, a) && (a.Drained? || a.ExitTakes?)
    ensures Good(l, Next(s, a))
  {
    hide Inv, Allowed, Advance;
    if a.Drained? {
      if s.host.Some? { KeepsDrainedHost(s, l); } else { KeepsDrainedNoHost(s, l); }
    } else {
      if s.host.value.cancelSet { KeepsExitTakes(s, l); } else { KeepsExitNothingToCancel(s, l); }
    }
  }

  lemma StepExit(s: State, l: Ledger, a: Action)
    requires Inv(s, l) && Enabled(s, a) && (a.ExitCancels? || a.ExitWaitReturns? || a.ExitCloses?)
    ensures Good(l, Next(s, a))
  {
    hide Inv, Allowed, Advance;
    if a.ExitCancels? { KeepsExitCancels(s, l); }
    else if a.ExitWaitReturns? { KeepsExitWaitReturns(s, l); }
    else { AllowsExitCloses(s, l); KeepsExitCloses(s, l); }
  }

  /** Any enabled step is good. */
  lemma StepKeeps(s: State, l: Ledger, a: Action)
    requires Inv(s, l) && Enabled(s, a)
    ensures Good(l, Next(s, a))
  {
    hide Inv, Good, Next, Enabled;
    match a {
      case CallInit(_, _, _) => StepCallInit(s, l, a);
      case InitReturns(_) => StepCallbackReturns(s, l, a);
      case RecordInterval => StepInit(s, l, a);
      case RecordJobs(_) => StepInit(s, l, a);
      case AnswerInit => StepInit(s, l, a);
      case CallStart => StepCallStart(s, l, a);
      case StartReturns(_) => StepCallbackReturns(s, l, a);
      case BeginJobs => StepCallStart(s, l, a);
      case LaunchNext => StepLaunch(s, l, a);
      case LaunchWatchdog => StepLaunch(s, l, a);
      case FinishStart => StepLaunch(s, l, a);
      case CallStop(_) => StepCallStop(s, l, a);
      case TakeCancel => StepStopJobs(s, l, a);
      case CallCancel => StepStopJobs(s, l, a);
      case WaitReturns => StepStopJobs(s, l, a);
      case StopReturns(_) => StepStopReturns(s, l, a);
      case PostToken => StepStopReturns(s, l, a);
      case Declare(_, _) => StepDeclare(s, l, a);
      case RunBegins(_) => StepRun(s, l, a);
      case RunEnds(_) => StepRun(s, l, a);
      case Decide(_, _) => StepRun(s, l, a);
      case TimerFires(_) => StepSelect(s, l, a);
      case SeesCancel(_) => StepSelect(s, l, a);
      case Arrive => StepEnvironment(s, l, a);
      case LoseHost => StepEnvironment(s, l, a);
      case Wake(_) => StepEnvironment(s, l, a);
      case ServerFails => StepEnvironment(s, l, a);
      case Drained => StepDrained(s, l, a);
      case ExitTakes => StepDrained(s, l, a);
      case ExitCancels => StepExit(s, l, a);
      case ExitWaitReturns => StepExit(s, l, a);
      case ExitCloses => StepExit(s, l, a);
    }
  }

  /** A good step's events extend a legal past to a legal past. */
  lemma StepExtends(past: Trace, step: Step)
    requires Ordered(past) && Good(LedgerOf(past), step)
    ensures Ordered(past + step.events) && Inv(step.s, LedgerOf(past + step.events))
  {
    hide Inv, Allowed, Advance, Ordered, LedgerOf;
    var es := step.events;
    if |es| == 0 {
      assert past + es == past;
    } else {
      OrderedExtends(past, es[0]);
      if |es| == 1 {
        assert past + es == past + [es[0]];
      } else {
        OrderedExtends(past + [es[0]], es[1]);
        assert past + es == past + [es[0]] + [es[1]];
      }
    }
  }

  lemma {:induction false} RunKeeps(s: State, past: Trace, run: seq<Action>)
    requires Inv(s, LedgerOf(past)) && Ordered(past) && Legal(s, run)
    ensures Inv(After(s, run), LedgerOf(past + TraceOf(s, run)))
    ensures Ordered(past + TraceOf(s, run))
    decreases |run|
  {
    hide Inv, Good, Ordered, LedgerOf, Next, Enabled;
    if run == [] {
      assert past + [] == past;
    } else {
      var step := Next(s, run[0]);
      StepKeeps(s, LedgerOf(past), run[0]);
      StepExtends(past, step);
      RunKeeps(step.s, past + step.events, run[1..]);
      assert past + TraceOf(s, run) == past + step.events + TraceOf(step.s, run[1..]);
    }
  }

  lemma InitialInv(id: string)
    ensures Inv(Initial(id), LedgerOf([])) && Ordered([])
  {
  }

  /** Over every run, in whatever order RPCs arrive and whatever callbacks, dials and selects decide. */
  lemma EveryRunIsOrdered(id: string, run: seq<Action>)
    requires Legal(Initial(id), run)
    ensures Ordered(TraceOf(Initial(id), run))
    ensures Inv(After(Initial(id), run), LedgerOf(TraceOf(Initial(id), run)))
  {
    hide Inv, Ordered;
    InitialInv(id);
    RunKeeps(Initial(id), [], run);
    assert [] + TraceOf(Initial(id), run) == TraceOf(Initial(id), run);
  }
}
