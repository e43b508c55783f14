/** What every step of the runtime keeps. */
module RuntimeInvariant {
  import opened Common
  import opened RuntimeTrace
  import opened Runtime

  /** Initialised or being initialised, with no job started. */
  ghost predicate Idling(c: Host) {
    c.gs == [] && !c.cancelSet && !c.ctxDone && !c.started && !c.locked
  }

  /** A hostClient on which at most Declare has been called. */
  ghost predicate Blank(c: Host) { c.jobs == [] && c.interval == 0 && Idling(c) }

  ghost predicate AllDone(gs: seq<Goroutine>) {
    forall g :: 0 <= g < |gs| ==> gs[g].pc == Done
  }

  /** A job leaves Fresh and Running only with a completed run; the watchdog never runs one. */
  ghost predicate Sane(x: Goroutine) {
    if x.isJob then x.pc == Fresh || x.pc == Running || x.runs > 0 else x.pc == Waiting || x.pc == Done
  }

  ghost predicate AllSane(gs: seq<Goroutine>) {
    forall g :: 0 <= g < |gs| ==> Sane(gs[g])
  }

  /** The first `jobs` goroutines are the jobs. */
  ghost predicate JobsFirst(gs: seq<Goroutine>, jobs: nat) {
    forall g :: 0 <= g < |gs| ==> (gs[g].isJob <==> g < jobs)
  }

  /** A failed attempt's hostClient is closed and was never put to use. */
  ghost predicate AllDropped(dropped: seq<Host>) {
    forall h :: 0 <= h < |dropped| ==> !dropped[h].open && Blank(dropped[h])
  }

  ghost predicate HostInv(s: State) {
    && AllDropped(s.dropped)
    && (s.host.Some? ==>
          && s.host.value.open == (s.main != Gone(0))
          && s.host.value.wg == Live(s.host.value.gs)
          && AllSane(s.host.value.gs))
  }

  ghost predicate CreatedInv(s: State) {
    if s.holder == Free then s.host == None else s.holder.InitCall? && s.host.Some? && Blank(s.host.value)
  }

  ghost predicate InitedInv(s: State) {
    && s.host.Some?
    && var c := s.host.value;
       match s.holder
       case InitInterval(_) => Blank(c)
       case InitJobs => c.jobs == [] && Idling(c)
       case Launching(n) =>
         && c.cancelSet && c.started && c.locked && !c.ctxDone
         && n == |c.gs| <= Goroutines(c) && JobsFirst(c.gs, |c.jobs|)
       case _ =>
         && (s.holder == Free || s.holder == InitAnswer || s.holder == StartCall || s.holder == StartJobs)
         && Idling(c)
  }

  /** The jobs in order, and then the watchdog if there is to be one. */
  ghost predicate AllLaunched(c: Host) { |c.gs| == Goroutines(c) && JobsFirst(c.gs, |c.jobs|) }

  /** Between taking the cancel function and seeing the WaitGroup empty. */
  ghost predicate Stopping(s: State) {
    s.holder.StopCancel? || s.holder.StopWait? || s.main == ExitCancel || s.main == ExitWait
  }

  ghost predicate StartedInv(s: State) {
    && s.host.Some?
    && (s.holder == Free || s.holder.StopTake? || s.holder.StopCancel? || s.holder.StopWait? || s.holder.StopCall?)
    && var c := s.host.value;
       && c.started && !c.locked
       && AllLaunched(c)
       && (c.cancelSet ==> !c.ctxDone && !s.holder.StopCall? && !Stopping(s))
       && (s.holder.StopWait? || s.main == ExitWait ==> c.ctxDone)
       && (!c.cancelSet && !Stopping(s) ==> AllDone(c.gs))
  }

  ghost predicate StoppedInv(s: State) {
    && s.holder == Free
    && (s.host.Some? ==>
          && AllDone(s.host.value.gs) && !s.host.value.cancelSet && !s.host.value.locked
          && (s.host.value.gs == [] || AllLaunched(s.host.value)))
  }

  ghost predicate PhaseInv(s: State) {
    match s.phase
    case Created => CreatedInv(s)
    case Inited => InitedInv(s)
    case Started => StartedInv(s)
    case Stopped => StoppedInv(s)
  }

  /** serve is past GracefulStop. */
  ghost predicate Exiting(s: State) { s.main != Select && s.main != Draining && s.main != Gone(1) }

  ghost predicate MainInv(s: State) {
    && (Exiting(s) ==> s.queued == 0 && s.posting == 0 && s.holder == Free)
    && (Exiting(s) && !s.main.Gone? ==> s.host.Some?)
    && (s.main == ExitCancel || s.main == ExitWait ==> s.phase == Started && s.host.Some? && !s.host.value.cancelSet)
    && ((s.main == ExitClose || s.main == Gone(0)) && s.host.Some? ==> AllDone(s.host.value.gs))
    && (s.shutdownToken || s.posting > 0 ==> s.phase == Stopped)
  }

  ghost predicate StateInv(s: State) { HostInv(s) && PhaseInv(s) && MainInv(s) }

  // ---- How the ledger of the past mirrors the state ----

  function CallbackIn(s: State): Callback {
    match s.holder
    case InitCall(_) => InInit(|s.dropped|)
    case StartCall => InStart
    case StopCall(_) => InStop
    case _ => Idle
  }

  predicate Answered(s: State) {
    s.phase != Created && s.host.Some? && !s.holder.InitInterval? && s.holder != InitJobs && s.holder != InitAnswer
  }

  predicate JobsBegun(s: State) { s.host.Some? && s.host.value.started }

  ghost predicate SurfacesMirror(surfaces: seq<seq<Surface>>, dropped: seq<Host>, host: Option<Host>) {
    && |surfaces| == |dropped| + (if host.Some? then 1 else 0)
    && (forall h :: 0 <= h < |dropped| ==> surfaces[h] == dropped[h].surfaces)
    && (host.Some? ==> surfaces[|dropped|] == host.value.surfaces)
  }

  ghost predicate LifecycleMirror(l: Ledger, s: State) {
    && l.phase == s.phase && l.callback == CallbackIn(s) && (l.exited <==> s.main.Gone?)
    && SurfacesMirror(l.surfaces, s.dropped, s.host)
    && l.closed == |s.dropped| + (if s.host.Some? && s.main == Gone(0) then 1 else 0)
    && l.initOk == (if s.phase == Created || s.host == None then None else Some(|s.dropped|))
    && l.answered == Answered(s)
    && l.startOk == (s.holder == StartJobs || JobsBegun(s))
    && l.jobsOn == (if JobsBegun(s) then Some(|s.dropped|) else None)
    && l.interval == (if s.phase == Created || s.host == None || s.holder.InitInterval? then None
                      else Some(s.host.value.interval))
    && l.jobs == (if s.phase == Created || s.host == None || s.holder.InitInterval? || s.holder == InitJobs then None
                  else Some(s.host.value.jobs))
  }

  function StatusOf(x: Goroutine): Status { Status(x.runs, x.pc == Running, x.pc == Done) }

  ghost predicate SameGoroutines(sts: seq<Status>, gs: seq<Goroutine>) {
    |sts| == |gs| && forall g :: 0 <= g < |gs| ==> sts[g] == StatusOf(gs[g])
  }

  ghost predicate GoroutinesMirror(l: Ledger, s: State) {
    && (if s.host.Some? then SameGoroutines(l.gs, s.host.value.gs) else l.gs == [])
    && (l.stopSeen ==> s.phase == Started || s.phase == Stopped)
    && (l.stopSeen && s.host.Some? ==> AllDone(s.host.value.gs) && !s.host.value.cancelSet)
  }

  ghost predicate Inv(s: State, l: Ledger) {
    StateInv(s) && LifecycleMirror(l, s) && GoroutinesMirror(l, s)
  }

  /** The step's events may follow `l`, and the invariant holds after them. */
  ghost predicate Good(l: Ledger, step: Step) {
    var es := step.events;
    if |es| == 0 then Inv(step.s, l)
    else if |es| == 1 then Allowed(l, es[0]) && Inv(step.s, Advance(l, es[0]))
    else
      && |es| == 2 && Allowed(l, es[0]) && Allowed(Advance(l, es[0]), es[1])
      && Inv(step.s, Advance(Advance(l, es[0]), es[1]))
  }

  // ---- Counting live goroutines ----

  lemma {:induction false} LiveUpdate(gs: seq<Goroutine>, g: nat, x: Goroutine)
    requires g < |gs| && gs[g].pc != Done
    ensures Live(gs[g := x]) == Live(gs) - (if x.pc == Done then 1 else 0)
  {
    var n := |gs| - 1;
    if g == n {
      assert gs[g := x][..n] == gs[..n];
    } else {
      LiveUpdate(gs[..n], g, x);
      assert gs[g := x][..n] == gs[..n][g := x];
    }
  }

  lemma {:induction false} LiveZero(gs: seq<Goroutine>)
    ensures Live(gs) == 0 <==> AllDone(gs)
  {
    if gs != [] {
      LiveZero(gs[..|gs| - 1]);
      assert forall g :: 0 <= g < |gs| - 1 ==> gs[..|gs| - 1][g] == gs[g];
    }
  }

  lemma LiveLaunch(gs: seq<Goroutine>, x: Goroutine)
    ensures Live(gs + [x]) == Live(gs) + (if x.pc == Done then 0 else 1)
  {
    assert (gs + [x])[..|gs|] == gs;
  }

  // ---- Init ----

  lemma AllowsInitRefused(s: State, l: Ledger, req: InitRequest, configOk: bool, dialOk: bool)
    requires Inv(s, l) && !s.main.Gone? && CanLock(s) && InitVerdict(s.id, s.phase, req, configOk, dialOk) != OK
    ensures Allowed(l, Returned(InitRpc, InitVerdict(s.id, s.phase, req, configOk, dialOk)))
  {
  }

  lemma KeepsInitRefused(s: State, l: Ledger, req: InitRequest, configOk: bool, dialOk: bool)
    requires Inv(s, l) && !s.main.Gone? && CanLock(s) && InitVerdict(s.id, s.phase, req, configOk, dialOk) != OK
    ensures Allowed(l, Returned(InitRpc, InitVerdict(s.id, s.phase, req, configOk, dialOk)))
    ensures Inv(NextInit(s, req, configOk, dialOk).s,
                Advance(l, Returned(InitRpc, InitVerdict(s.id, s.phase, req, configOk, dialOk))))
  {
    hide Allowed, AllSane, AllDone, JobsFirst, SameGoroutines, SurfacesMirror, AllDropped;
    AllowsInitRefused(s, l, req, configOk, dialOk);
  }

  lemma KeepsInitBegins(s: State, l: Ledger, req: InitRequest)
    requires Inv(s, l) && !s.main.Gone? && CanLock(s) && InitVerdict(s.id, s.phase, req, true, true) == OK
    ensures Allowed(l, InitBegin(|s.dropped|))
    ensures Inv(NextInit(s, req, true, true).s, Advance(l, InitBegin(|s.dropped|)))
  {
  }

  lemma AllowsInitFails(s: State, l: Ledger)
    requires Inv(s, l) && !s.main.Gone? && s.holder.InitCall? && s.host.Some?
    ensures var failed := InitFailed(|s.dropped|);
      Allowed(l, failed) && Allowed(Advance(l, failed), Returned(InitRpc, Internal))
  {
  }

  lemma KeepsInitFails(s: State, l: Ledger)
    requires Inv(s, l) && !s.main.Gone? && s.holder.InitCall? && s.host.Some?
    ensures var failed := InitFailed(|s.dropped|);
      Allowed(l, failed) && Allowed(Advance(l, failed), Returned(InitRpc, Internal))
    ensures Inv(NextInitReturns(s, false).s, Advance(Advance(l, InitFailed(|s.dropped|)), Returned(InitRpc, Internal)))
  {
    hide Allowed;
    AllowsInitFails(s, l);
  }

  lemma KeepsInitSucceeds(s: State, l: Ledger)
    requires Inv(s, l) && !s.main.Gone? && s.holder.InitCall? && s.host.Some?
    ensures Allowed(l, InitOk(|s.dropped|))
    ensures Inv(NextInitReturns(s, true).s, Advance(l, InitOk(|s.dropped|)))
  {
  }

  lemma AllowsRecordInterval(s: State, l: Ledger)
    requires Inv(s, l) && !s.main.Gone? && s.holder.InitInterval? && s.host.Some?
    ensures Allowed(l, IntervalSet(s.holder.seconds))
  {
  }

  lemma KeepsRecordInterval(s: State, l: Ledger)
    requires Inv(s, l) && !s.main.Gone? && s.holder.InitInterval? && s.host.Some?
    ensures Allowed(l, IntervalSet(s.holder.seconds))
    ensures Inv(NextRecordInterval(s).s, Advance(l, IntervalSet(s.holder.seconds)))
  {
    hide Allowed;
    AllowsRecordInterval(s, l);
  }

  lemma KeepsRecordJobs(s: State, l: Ledger, jobs: seq<Job>)
    requires Inv(s, l) && !s.main.Gone? && s.holder == InitJobs && s.host.Some?
    ensures Allowed(l, JobsAdded(jobs))
    ensures Inv(NextRecordJobs(s, jobs).s, Advance(l, JobsAdded(jobs)))
  {
    assert [] + jobs == jobs;
  }

  lemma AllowsAnswerInit(s: State, l: Ledger)
    requires Inv(s, l) && !s.main.Gone? && s.holder == InitAnswer && s.host.Some?
    ensures var answer := InitAnswered(|s.dropped|, s.host.value.surfaces);
      Allowed(l, answer) && Allowed(Advance(l, answer), Returned(InitRpc, OK))
  {
  }

  lemma KeepsAnswerInit(s: State, l: Ledger)
    requires Inv(s, l) && !s.main.Gone? && s.holder == InitAnswer && s.host.Some?
    ensures var answer := InitAnswered(|s.dropped|, s.host.value.surfaces);
      Allowed(l, answer) && Allowed(Advance(l, answer), Returned(InitRpc, OK))
    ensures var answer := InitAnswered(|s.dropped|, s.host.value.surfaces);
      Inv(Answer(s, [], InitRpc, OK).s, Advance(Advance(l, answer), Returned(InitRpc, OK)))
  {
    hide Allowed, AllSane, AllDone, JobsFirst, SameGoroutines, AllDropped;
    AllowsAnswerInit(s, l);
  }

  // ---- Start ----

  lemma KeepsStartRefused(s: State, l: Ledger)
    requires Inv(s, l) && !s.main.Gone? && CanLock(s) && s.phase != Inited
    ensures Allowed(l, Returned(StartRpc, FailedPrecondition))
    ensures Inv(NextStart(s).s, Advance(l, Returned(StartRpc, FailedPrecondition)))
  {
    hide AllSane, AllDone, JobsFirst, SameGoroutines, SurfacesMirror, AllDropped;
  }

  lemma KeepsStartBegins(s: State, l: Ledger)
    requires Inv(s, l) && !s.main.Gone? && CanLock(s) && s.phase == Inited
    ensures Allowed(l, StartBegin)
    ensures Inv(NextStart(s).s, Advance(l, StartBegin))
  {
  }

  lemma AllowsStartFails(s: State, l: Ledger)
    requires Inv(s, l) && !s.main.Gone? && s.holder == StartCall
    ensures Allowed(l, StartFailed) && Allowed(Advance(l, StartFailed), Returned(StartRpc, Internal))
  {
  }

  lemma KeepsStartFails(s: State, l: Ledger)
    requires Inv(s, l) && !s.main.Gone? && s.holder == StartCall
    ensures Allowed(l, StartFailed) && Allowed(Advance(l, StartFailed), Returned(StartRpc, Internal))
    ensures Inv(NextStartReturns(s, false).s, Advance(Advance(l, StartFailed), Returned(StartRpc, Internal)))
  {
    hide Allowed, AllSane, AllDone, JobsFirst, SameGoroutines, SurfacesMirror, AllDropped;
    AllowsStartFails(s, l);
  }

  lemma KeepsStartSucceeds(s: State, l: Ledger)
    requires Inv(s, l) && !s.main.Gone? && s.holder == StartCall
    ensures Allowed(l, StartOk)
    ensures Inv(NextStartReturns(s, true).s, Advance(l, StartOk))
  {
  }

  lemma AllowsBeginJobs(s: State, l: Ledger)
    requires Inv(s, l) && !s.main.Gone? && s.holder == StartJobs && s.host.Some?
    ensures !s.host.value.cancelSet && Allowed(l, JobsStarting(|s.dropped|))
  {
  }

  lemma KeepsBeginJobs(s: State, l: Ledger)
    requires Inv(s, l) && !s.main.Gone? && s.holder == StartJobs && s.host.Some?
    ensures !s.host.value.cancelSet && Allowed(l, JobsStarting(|s.dropped|))
    ensures Inv(NextBeginJobs(s).s, Advance(l, JobsStarting(|s.dropped|)))
  {
    hide Allowed;
    AllowsBeginJobs(s, l);
  }

  lemma KeepsLaunchState(s: State, isJob: bool)
    requires StateInv(s) && s.holder.Launching? && s.host.Some? && s.holder.next < Goroutines(s.host.value)
    requires isJob <==> s.holder.next < |s.host.value.jobs|
    ensures s.phase == Inited && StateInv(NextLaunch(s, isJob).s)
  {
    LiveLaunch(s.host.value.gs, Goroutine(isJob, if isJob then Fresh else Waiting, 0));
  }

  lemma KeepsLaunch(s: State, l: Ledger, isJob: bool)
    requires Inv(s, l) && !s.main.Gone? && s.holder.Launching? && s.host.Some?
    requires s.holder.next < Goroutines(s.host.value)
    requires isJob <==> s.holder.next < |s.host.value.jobs|
    ensures Allowed(l, Launched(|s.host.value.gs|))
    ensures Inv(NextLaunch(s, isJob).s, Advance(l, Launched(|s.host.value.gs|)))
  {
    hide HostInv, MainInv;
    KeepsLaunchState(s, isJob);
  }

  lemma AllowsFinishStart(s: State, l: Ledger)
    requires Inv(s, l) && !s.main.Gone? && s.holder.Launching? && s.host.Some?
    requires s.holder.next == Goroutines(s.host.value)
    ensures Allowed(l, Returned(StartRpc, OK))
  {
  }

  lemma KeepsFinishStart(s: State, l: Ledger)
    requires Inv(s, l) && !s.main.Gone? && s.holder.Launching? && s.host.Some?
    requires s.holder.next == Goroutines(s.host.value)
    ensures Allowed(l, Returned(StartRpc, OK))
    ensures Inv(NextFinishStart(s).s, Advance(l, Returned(StartRpc, OK)))
  {
    hide Allowed;
    AllowsFinishStart(s, l);
  }

  // ---- Stop and Shutdown ----

  lemma AllowsStopNoop(s: State, l: Ledger)
    requires Inv(s, l) && !s.main.Gone? && CanLock(s) && s.phase != Started
    ensures Allowed(l, StopNoop) && Allowed(Advance(l, StopNoop), Returned(StopRpc, OK))
  {
  }

  lemma KeepsStopNoop(s: State, l: Ledger)
    requires Inv(s, l) && !s.main.Gone? && CanLock(s) && s.phase != Started
    ensures Inv(NextStop(s, false).s, Advance(Advance(l, StopNoop), Returned(StopRpc, OK)))
  {
    hide Allowed, AllSane, JobsFirst, SameGoroutines, SurfacesMirror, AllDropped;
  }

  lemma AllowsShutdownNoop(s: State, l: Ledger)
    requires Inv(s, l) && !s.main.Gone? && CanLock(s) && s.phase != Started
    ensures Allowed(l, StopNoop)
  {
  }

  lemma KeepsShutdownNoop(s: State, l: Ledger)
    requires Inv(s, l) && !s.main.Gone? && CanLock(s) && s.phase != Started
    ensures Inv(NextStop(s, true).s, Advance(l, StopNoop))
  {
    hide Allowed, AllSane, JobsFirst, SameGoroutines, SurfacesMirror, AllDropped;
  }

  lemma KeepsStopTakesLock(s: State, l: Ledger, shutdown: bool)
    requires Inv(s, l) && !s.main.Gone? && CanLock(s) && s.phase == Started
    ensures Inv(NextStop(s, shutdown).s, l)
  {
  }

  lemma KeepsTakeCancel(s: State, l: Ledger)
    requires Inv(s, l) && !s.main.Gone? && s.holder.StopTake? && s.host.Some? && s.host.value.cancelSet
    ensures Inv(NextTakeCancel(s).s, l)
  {
  }

  lemma AllowsNothingToCancel(s: State, l: Ledger)
    requires Inv(s, l) && !s.main.Gone? && s.holder.StopTake? && s.host.Some? && !s.host.value.cancelSet
    ensures Allowed(l, StopBegin)
  {
    assert s.phase == Started && StartedInv(s);
  }

  lemma KeepsNothingToCancel(s: State, l: Ledger)
    requires Inv(s, l) && !s.main.Gone? && s.holder.StopTake? && s.host.Some? && !s.host.value.cancelSet
    ensures Allowed(l, StopBegin)
    ensures Inv(NextTakeCancel(s).s, Advance(l, StopBegin))
  {
    hide Allowed;
    AllowsNothingToCancel(s, l);
    assert s.phase == Started && StartedInv(s);
  }

  lemma KeepsCallCancel(s: State, l: Ledger)
    requires Inv(s, l) && !s.main.Gone? && s.holder.StopCancel? && s.host.Some?
    ensures Inv(NextCallCancel(s).s, l)
  {
  }

  lemma AllowsWaitReturns(s: State, l: Ledger)
    requires Inv(s, l) && !s.main.Gone? && s.holder.StopWait? && s.host.Some? && s.host.value.wg == 0
    ensures Allowed(l, StopBegin)
  {
    LiveZero(s.host.value.gs);
  }

  lemma KeepsWaitReturns(s: State, l: Ledger)
    requires Inv(s, l) && !s.main.Gone? && s.holder.StopWait? && s.host.Some? && s.host.value.wg == 0
    ensures Allowed(l, StopBegin)
    ensures Inv(Quiet(s.(holder := StopCall(s.holder.shutdown))).s, Advance(l, StopBegin))
  {
    hide Allowed;
    AllowsWaitReturns(s, l);
    LiveZero(s.host.value.gs);
  }

  lemma InStopCall(s: State)
    requires StateInv(s) && s.holder.StopCall?
    ensures s.phase == Started && s.host.Some? && AllDone(s.host.value.gs) && s.host.value.started
    ensures !s.host.value.cancelSet && |s.host.value.gs| == Goroutines(s.host.value)
  {
    assert s.phase == Started && StartedInv(s);
  }

  /** Module.Stop returns: the state alone. */
  lemma KeepsStopState(s: State, ok: bool)
    requires StateInv(s) && s.holder.StopCall?
    ensures StateInv(NextStopReturns(s, ok).s)
  {
    hide AllSane, JobsFirst, AllDropped;
    InStopCall(s);
  }

  lemma AllowsStopFails(s: State, l: Ledger)
    requires Inv(s, l) && !s.main.Gone? && s.holder.StopCall?
    ensures Allowed(l, StopFailed) && Allowed(Advance(l, StopFailed), Returned(StopRpcOf(s.holder.shutdown), Internal))
  {
    InStopCall(s);
  }

  lemma KeepsStopFails(s: State, l: Ledger)
    requires Inv(s, l) && !s.main.Gone? && s.holder.StopCall?
    ensures Inv(NextStopReturns(s, false).s,
                Advance(Advance(l, StopFailed), Returned(StopRpcOf(s.holder.shutdown), Internal)))
  {
    hide Allowed, StateInv, AllDone, SameGoroutines, SurfacesMirror;
    InStopCall(s);
    KeepsStopState(s, false);
  }

  lemma AllowsStopSucceeds(s: State, l: Ledger)
    requires Inv(s, l) && !s.main.Gone? && s.holder.StopCall? && !s.holder.shutdown
    ensures Allowed(l, StopOk) && Allowed(Advance(l, StopOk), Returned(StopRpc, OK))
  {
    hide StateInv;
    InStopCall(s);
  }

  lemma KeepsStopSucceeds(s: State, l: Ledger)
    requires Inv(s, l) && !s.main.Gone? && s.holder.StopCall? && !s.holder.shutdown
    ensures Inv(NextStopReturns(s, true).s, Advance(Advance(l, StopOk), Returned(StopRpc, OK)))
  {
    hide Allowed, StateInv, AllDone, SameGoroutines, SurfacesMirror;
    InStopCall(s);
    KeepsStopState(s, true);
  }

  lemma AllowsShutdownSucceeds(s: State, l: Ledger)
    requires Inv(s, l) && !s.main.Gone? && s.holder.StopCall? && s.holder.shutdown
    ensures Allowed(l, StopOk)
  {
    hide StateInv;
    InStopCall(s);
  }

  lemma KeepsShutdownSucceeds(s: State, l: Ledger)
    requires Inv(s, l) && !s.main.Gone? && s.holder.StopCall? && s.holder.shutdown
    ensures Allowed(l, StopOk)
    ensures Inv(NextStopReturns(s, true).s, Advance(l, StopOk))
  {
    hide Allowed, StateInv, AllDone, SameGoroutines, SurfacesMirror;
    AllowsShutdownSucceeds(s, l);
    InStopCall(s);
    KeepsStopState(s, true);
  }

  lemma KeepsPostToken(s: State, l: Ledger)
    requires Inv(s, l) && !s.main.Gone? && s.posting > 0
    ensures Allowed(l, Returned(ShutdownRpc, OK))
    ensures Inv(Quiet(s.(posting := s.posting - 1, shutdownToken := true)).s, Advance(l, Returned(ShutdownRpc, OK)))
  {
  }

  // ---- Module code and goroutines ----

  lemma KeepsDroppedHosts(s: State, surfaces: seq<seq<Surface>>, h: nat, more: seq<Surface>)
    requires AllDropped(s.dropped) && SurfacesMirror(surfaces, s.dropped, s.host) && h < |s.dropped|
    ensures AllDropped(NextDeclare(s, h, more).s.dropped)
    ensures SurfacesMirror(surfaces[h := surfaces[h] + more], NextDeclare(s, h, more).s.dropped, s.host)
  {
  }

  lemma AllowsDeclareDropped(s: State, l: Ledger, h: nat, surfaces: seq<Surface>)
    requires Inv(s, l) && !s.main.Gone? && h < |s.dropped|
    ensures !s.dropped[h].started && Allowed(l, Declared(h, surfaces))
  {
  }

  lemma KeepsDeclareDropped(s: State, l: Ledger, h: nat, surfaces: seq<Surface>)
    requires Inv(s, l) && !s.main.Gone? && h < |s.dropped|
    ensures !s.dropped[h].started && Allowed(l, Declared(h, surfaces))
    ensures Inv(NextDeclare(s, h, surfaces).s, Advance(l, Declared(h, surfaces)))
  {
    hide Allowed;
    AllowsDeclareDropped(s, l, h, surfaces);
    KeepsDroppedHosts(s, l.surfaces, h, surfaces);
    var s' := NextDeclare(s, h, surfaces).s;
    assert s' == s.(dropped := s'.dropped) && |s'.dropped| == |s.dropped|;
  }

  lemma KeepsDeclare(s: State, l: Ledger, surfaces: seq<Surface>)
    requires Inv(s, l) && !s.main.Gone? && s.host.Some? && !s.host.value.started
    ensures Allowed(l, Declared(|s.dropped|, surfaces))
    ensures Inv(NextDeclare(s, |s.dropped|, surfaces).s, Advance(l, Declared(|s.dropped|, surfaces)))
  {
  }

  lemma KeepsDeclareRefused(s: State, l: Ledger)
    requires Inv(s, l) && !s.main.Gone? && s.host.Some? && s.host.value.started
    ensures Allowed(l, DeclareRefused(|s.dropped|))
    ensures Inv(Quiet(s).s, Advance(l, DeclareRefused(|s.dropped|)))
  {
  }

  /** Any change of one live goroutine that leaves it sane. */
  lemma KeepsMoveState(s: State, g: nat, x: Goroutine)
    requires StateInv(s) && s.host.Some? && g < |s.host.value.gs| && s.host.value.gs[g].pc != Done
    requires Sane(x) && x.isJob == s.host.value.gs[g].isJob
    ensures StateInv(MoveGoroutine(s, g, x))
  {
    LiveUpdate(s.host.value.gs, g, x);
  }

  lemma KeepsMove(s: State, l: Ledger, g: nat, x: Goroutine)
    requires Inv(s, l) && !s.main.Gone? && s.host.Some? && g < |s.host.value.gs| && s.host.value.gs[g].pc != Done
    requires Sane(x) && x.isJob == s.host.value.gs[g].isJob
    ensures g < |l.gs| && !l.exited && !l.stopSeen && l.startOk && l.gs[g] == StatusOf(s.host.value.gs[g])
    ensures Inv(MoveGoroutine(s, g, x), l.(gs := l.gs[g := StatusOf(x)]))
  {
    KeepsMoveState(s, g, x);
  }

  lemma KeepsRunBegins(s: State, l: Ledger, g: nat)
    requires Inv(s, l) && !s.main.Gone? && At(s, g, Fresh)
    ensures Allowed(l, RunBegin(g)) && Inv(NextGoroutine(s, RunBegins(g)).s, Advance(l, RunBegin(g)))
  {
    hide PhaseInv, MainInv, LifecycleMirror, GoroutinesMirror;
    var x := s.host.value.gs[g];
    var y := x.(pc := Running);
    KeepsMove(s, l, g, y);
    assert Advance(l, RunBegin(g)) == l.(gs := l.gs[g := StatusOf(y)]);
  }

  lemma KeepsRunEnds(s: State, l: Ledger, g: nat)
    requires Inv(s, l) && !s.main.Gone? && At(s, g, Running)
    ensures Allowed(l, RunEnd(g)) && Inv(NextGoroutine(s, RunEnds(g)).s, Advance(l, RunEnd(g)))
  {
    hide PhaseInv, MainInv, LifecycleMirror, GoroutinesMirror;
    var x := s.host.value.gs[g];
    var y := x.(pc := Deciding, runs := x.runs + 1);
    KeepsMove(s, l, g, y);
    assert Advance(l, RunEnd(g)) == l.(gs := l.gs[g := StatusOf(y)]);
  }

  lemma KeepsDecideAgain(s: State, l: Ledger, g: nat)
    requires Inv(s, l) && !s.main.Gone? && At(s, g, Deciding)
    ensures Inv(NextGoroutine(s, Decide(g, true)).s, l)
  {
    hide PhaseInv, MainInv, LifecycleMirror, GoroutinesMirror;
    var x := s.host.value.gs[g];
    KeepsMove(s, l, g, x.(pc := Waiting));
    assert l.gs[g := l.gs[g]] == l.gs;
  }

  lemma KeepsDecideEnd(s: State, l: Ledger, g: nat)
    requires Inv(s, l) && !s.main.Gone? && At(s, g, Deciding)
    ensures Allowed(l, Ended(g)) && Inv(NextGoroutine(s, Decide(g, false)).s, Advance(l, Ended(g)))
  {
    hide PhaseInv, MainInv, LifecycleMirror, GoroutinesMirror;
    var x := s.host.value.gs[g];
    var y := x.(pc := Done);
    KeepsMove(s, l, g, y);
    assert Advance(l, Ended(g)) == l.(gs := l.gs[g := StatusOf(y)]);
  }

  lemma KeepsTimerFires(s: State, l: Ledger, g: nat)
    requires Inv(s, l) && !s.main.Gone? && At(s, g, Waiting) && s.host.value.gs[g].isJob
    ensures Allowed(l, RunBegin(g)) && Inv(NextGoroutine(s, TimerFires(g)).s, Advance(l, RunBegin(g)))
  {
    hide PhaseInv, MainInv, LifecycleMirror, GoroutinesMirror;
    var x := s.host.value.gs[g];
    var y := x.(pc := Running);
    KeepsMove(s, l, g, y);
    assert Advance(l, RunBegin(g)) == l.(gs := l.gs[g := StatusOf(y)]);
  }

  lemma KeepsSeesCancel(s: State, l: Ledger, g: nat)
    requires Inv(s, l) && !s.main.Gone? && At(s, g, Waiting)
    ensures Allowed(l, Ended(g)) && Inv(NextGoroutine(s, SeesCancel(g)).s, Advance(l, Ended(g)))
  {
    hide PhaseInv, MainInv, LifecycleMirror, GoroutinesMirror;
    var x := s.host.value.gs[g];
    var y := x.(pc := Done);
    KeepsMove(s, l, g, y);
    assert Advance(l, Ended(g)) == l.(gs := l.gs[g := StatusOf(y)]);
  }

  // ---- serve's own goroutine and its environment ----

  lemma KeepsArrive(s: State, l: Ledger)
    requires Inv(s, l) && !s.main.Gone? && s.main == Select
    ensures Inv(Quiet(s.(queued := s.queued + 1)).s, l)
  {
  }

  lemma KeepsLoseHost(s: State, l: Ledger)
    requires Inv(s, l) && !s.main.Gone? && s.host.Some?
    ensures Inv(Quiet(s.(hostLostToken := true)).s, l)
  {
  }

  lemma KeepsWake(s: State, l: Ledger, cause: Cause)
    requires Inv(s, l) && !s.main.Gone? && s.main == Select
    ensures Inv(NextWake(s, cause).s, l)
  {
    hide AllSane, AllDone, JobsFirst, SameGoroutines, SurfacesMirror, AllDropped;
  }

  lemma AllowsServerFails(s: State, l: Ledger)
    requires Inv(s, l) && !s.main.Gone? && s.main == Select
    ensures Allowed(l, Exited(1))
  {
  }

  lemma KeepsServerFails(s: State, l: Ledger)
    requires Inv(s, l) && !s.main.Gone? && s.main == Select
    ensures Allowed(l, Exited(1))
    ensures Inv(Quiet(s.(main := Gone(1))).s, Advance(l, Exited(1)))
  {
    hide Allowed, AllSane, AllDone, JobsFirst, SameGoroutines, SurfacesMirror, AllDropped;
    AllowsServerFails(s, l);
  }

  lemma KeepsDrainedHost(s: State, l: Ledger)
    requires Inv(s, l) && !s.main.Gone? && s.main == Draining
    requires s.holder == Free && s.queued == 0 && s.posting == 0 && s.host.Some?
    ensures Inv(NextDrained(s).s, l)
  {
  }

  lemma KeepsDrainedNoHost(s: State, l: Ledger)
    requires Inv(s, l) && !s.main.Gone? && s.main == Draining
    requires s.holder == Free && s.queued == 0 && s.posting == 0 && s.host.None?
    ensures Allowed(l, Exited(0))
    ensures Inv(NextDrained(s).s, Advance(l, Exited(0)))
  {
  }

  lemma KeepsExitTakes(s: State, l: Ledger)
    requires Inv(s, l) && !s.main.Gone? && s.main == ExitTake && s.host.Some? && s.host.value.cancelSet
    ensures Inv(NextExitTakes(s).s, l)
  {
  }

  lemma KeepsExitNothingToCancel(s: State, l: Ledger)
    requires Inv(s, l) && !s.main.Gone? && s.main == ExitTake && s.host.Some? && !s.host.value.cancelSet
    ensures Inv(NextExitTakes(s).s, l)
  {
  }

  lemma KeepsExitCancels(s: State, l: Ledger)
    requires Inv(s, l) && !s.main.Gone? && s.main == ExitCancel && s.host.Some?
    ensures Inv(NextExitCancels(s).s, l)
  {
  }

  lemma KeepsExitWaitReturns(s: State, l: Ledger)
    requires Inv(s, l) && !s.main.Gone? && s.main == ExitWait && s.host.Some? && s.host.value.wg == 0
    ensures Inv(Quiet(s.(main := ExitClose)).s, l)
  {
    LiveZero(s.host.value.gs);
  }

  lemma AllowsExitCloses(s: State, l: Ledger)
    requires Inv(s, l) && !s.main.Gone? && s.main == ExitClose && s.host.Some?
    ensures Allowed(l, HostClosed(|s.dropped|)) && Allowed(Advance(l, HostClosed(|s.dropped|)), Exited(0))
  {
  }

  lemma KeepsExitCloses(s: State, l: Ledger)
    requires Inv(s, l) && !s.main.Gone? && s.main == ExitClose && s.host.Some?
    ensures Inv(NextExitCloses(s).s, Advance(Advance(l, HostClosed(|s.dropped|)), Exited(0)))
  {
    hide Allowed, AllSane, AllDone, JobsFirst, SameGoroutines, AllDropped;
  }
}
