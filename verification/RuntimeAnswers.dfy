/** Every RPC the process admits is answered once, as the kind of RPC it is, over every run. */
module RuntimeAnswers {
  import opened Common
  import opened RuntimeTrace
  import opened Runtime
  import opened RuntimeInvariant
  import opened RuntimeRuns
  import opened RuntimeTheorems
  import opened RuntimeExit

  /** The RPC that holds the lock. */
  function Serving(holder: Holder): Option<Rpc> {
    match holder
    case Free => None
    case InitCall(_) => Some(InitRpc)
    case InitInterval(_) => Some(InitRpc)
    case InitJobs => Some(InitRpc)
    case InitAnswer => Some(InitRpc)
    case StartCall => Some(StartRpc)
    case StartJobs => Some(StartRpc)
    case Launching(_) => Some(StartRpc)
    case StopTake(shutdown) => Some(if shutdown then ShutdownRpc else StopRpc)
    case StopCancel(shutdown) => Some(if shutdown then ShutdownRpc else StopRpc)
    case StopWait(shutdown) => Some(if shutdown then ShutdownRpc else StopRpc)
    case StopCall(shutdown) => Some(if shutdown then ShutdownRpc else StopRpc)
  }

  /** RPCs of one kind that have had the lock and are yet to be answered. */
  function InFlight(s: State, rpc: Rpc): nat {
    (if Serving(s.holder) == Some(rpc) then 1 else 0) + (if rpc == ShutdownRpc then s.posting else 0)
  }

  function Answers(t: Trace, rpc: Rpc): nat {
    if t == [] then 0 else (if t[0].Returned? && t[0].rpc == rpc then 1 else 0) + Answers(t[1..], rpc)
  }

  predicate Calls(a: Action, rpc: Rpc) {
    match rpc
    case InitRpc => a.CallInit?
    case StartRpc => a.CallStart?
    case StopRpc => a == CallStop(false)
    case ShutdownRpc => a == CallStop(true)
  }

  function CallsIn(run: seq<Action>, rpc: Rpc): nat {
    if run == [] then 0 else (if Calls(run[0], rpc) then 1 else 0) + CallsIn(run[1..], rpc)
  }

  function Arrivals(run: seq<Action>): nat { multiset(run)[Arrive] }

  function AllCallsIn(run: seq<Action>): nat {
    CallsIn(run, InitRpc) + CallsIn(run, StartRpc) + CallsIn(run, StopRpc) + CallsIn(run, ShutdownRpc)
  }

  lemma {:induction false} AnswersJoin(first: Trace, second: Trace, rpc: Rpc)
    ensures Answers(first + second, rpc) == Answers(first, rpc) + Answers(second, rpc)
    decreases |first|
  {
    if first == [] {
      assert first + second == second;
    } else {
      AnswersJoin(first[1..], second, rpc);
      assert (first + second)[1..] == first[1..] + second;
    }
  }

  lemma FewAnswers(es: Trace, rpc: Rpc)
    ensures es == [] ==> Answers(es, rpc) == 0
    ensures |es| == 1 ==> Answers(es, rpc) == if es[0].Returned? && es[0].rpc == rpc then 1 else 0
    ensures |es| == 2 && !es[0].Returned? ==> Answers(es, rpc) == if es[1].Returned? && es[1].rpc == rpc then 1 else 0
  {
  }

  /** The step answers, or takes on, as many RPCs of this kind as it should. */
  ghost predicate Balanced(s: State, a: Action, rpc: Rpc)
    requires Enabled(s, a)
  {
    Answers(Next(s, a).events, rpc) + InFlight(Next(s, a).s, rpc) == InFlight(s, rpc) + (if Calls(a, rpc) then 1 else 0)
  }

  lemma InitBalanced(s: State, a: Action, rpc: Rpc)
    requires Enabled(s, a) && OfInit(a)
    ensures Balanced(s, a, rpc)
  {
    hide Answers;
    FewAnswers(Next(s, a).events, rpc);
  }

  lemma StartBalanced(s: State, a: Action, rpc: Rpc)
    requires Enabled(s, a) && OfStart(a)
    ensures Balanced(s, a, rpc)
  {
    hide Answers;
    FewAnswers(Next(s, a).events, rpc);
  }

  lemma StopCallBalanced(s: State, a: Action, rpc: Rpc)
    requires Enabled(s, a) && (a.CallStop? || a.PostToken?)
    ensures Balanced(s, a, rpc)
  {
    hide Answers;
    FewAnswers(Next(s, a).events, rpc);
  }

  lemma StopJobsBalanced(s: State, a: Action, rpc: Rpc)
    requires Enabled(s, a) && (a.TakeCancel? || a.CallCancel? || a.WaitReturns?)
    ensures Balanced(s, a, rpc)
  {
    hide Answers;
    FewAnswers(Next(s, a).events, rpc);
  }

  lemma StopReturnsBalanced(s: State, a: Action, rpc: Rpc)
    requires Enabled(s, a) && a.StopReturns?
    ensures Balanced(s, a, rpc)
  {
    hide Answers;
    FewAnswers(Next(s, a).events, rpc);
  }

  lemma StopBalanced(s: State, a: Action, rpc: Rpc)
    requires Enabled(s, a) && OfStop(a)
    ensures Balanced(s, a, rpc)
  {
    hide Balanced, Next, Enabled;
    if a.CallStop? || a.PostToken? { StopCallBalanced(s, a, rpc); }
    else if a.StopReturns? { StopReturnsBalanced(s, a, rpc); }
    else { StopJobsBalanced(s, a, rpc); }
  }

  lemma OtherBalanced(s: State, a: Action, rpc: Rpc)
    requires Enabled(s, a) && !OfInit(a) && !OfStart(a) && !OfStop(a)
    ensures Balanced(s, a, rpc)
  {
    hide Answers;
    FewAnswers(Next(s, a).events, rpc);
  }

  lemma AnswerStep(s: State, a: Action, rpc: Rpc)
    requires Enabled(s, a)
    ensures Balanced(s, a, rpc)
  {
    hide Enabled, Next, Balanced;
    if OfInit(a) { InitBalanced(s, a, rpc); }
    else if OfStart(a) { StartBalanced(s, a, rpc); }
    else if OfStop(a) { StopBalanced(s, a, rpc); }
    else { OtherBalanced(s, a, rpc); }
  }

  lemma {:induction false} AnswersRun(s: State, run: seq<Action>, rpc: Rpc)
    requires Legal(s, run)
    ensures Answers(TraceOf(s, run), rpc) + InFlight(After(s, run), rpc) == InFlight(s, rpc) + CallsIn(run, rpc)
    ensures After(s, run).queued + AllCallsIn(run) == s.queued + Arrivals(run)
    decreases |run|
  {
    hide Enabled, Next, InFlight, Calls;
    if run != [] {
      var step := Next(s, run[0]);
      AnswerStep(s, run[0], rpc);
      StepFramed(s, run[0]);
      AnswersRun(step.s, run[1..], rpc);
      AnswersJoin(step.events, TraceOf(step.s, run[1..]), rpc);
      CallsFirst(run);
    }
  }

  lemma CallsFirst(run: seq<Action>)
    requires run != []
    ensures var a := run[0];
      AllCallsIn(run) == AllCallsIn(run[1..]) + (if a.CallInit? || a.CallStart? || a.CallStop? then 1 else 0)
    ensures Arrivals(run) == Arrivals(run[1..]) + (if run[0] == Arrive then 1 else 0)
  {
    assert run == [run[0]] + run[1..];
  }

  /**
   * Over every run each RPC that was admitted is queued, in flight or answered, exactly once and as the kind
   * of RPC it is; after a clean exit all have been answered.
   */
  lemma EveryRpcAnswered(id: string, run: seq<Action>, rpc: Rpc)
    requires Legal(Initial(id), run)
    ensures var s, t := After(Initial(id), run), TraceOf(Initial(id), run);
      && Answers(t, rpc) + InFlight(s, rpc) == CallsIn(run, rpc)
      && s.queued + AllCallsIn(run) == Arrivals(run)
      && (s.main == Gone(0) ==> s.queued == 0 && InFlight(s, rpc) == 0)
  {
    hide Enabled, Next, Ordered, LifecycleMirror, GoroutinesMirror, PhaseInv, HostInv;
    AnswersRun(Initial(id), run, rpc);
    EveryRunIsOrdered(id, run);
  }
}
