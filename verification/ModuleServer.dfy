/**
 * moduleServer as an object: its RPC methods in the source's own sequence of statements,
 * one at a time under `mu`. A ghost run records the machine steps each statement stands
 * for, so every sequence of calls is a run of the `Runtime` machine and its theorems apply.
 */
module ModuleServerObject {
  import opened Common
  import opened RuntimeTrace
  import opened Runtime
  import RI = RuntimeInvariant
  import RR = RuntimeRuns
  import RT = RuntimeTheorems

  lemma OwnStepMoves(s: State, g: nat)
    requires !s.main.Gone? && s.host.Some? && g < |s.host.value.gs|
    requires s.host.value.gs[g].pc != Done && s.host.value.ctxDone
    ensures var x := s.host.value.gs[g];
      var a := RT.OwnStep(g, x.pc);
      Enabled(s, a) && GoroutineStep(a) && !a.TimerFires? && Next(s, a).s == MoveGoroutine(s, g, RT.Stepped(x, a))
  {
  }

  // ---- The machine steps of each RPC ----

  lemma StepRecordInterval(s: State)
    requires !s.main.Gone? && s.holder.InitInterval? && HostUnlocked(s)
    ensures var c, n := s.host.value, s.holder.seconds;
      && Enabled(s, RecordInterval)
      && Next(s, RecordInterval).s
         == s.(host := Some(if n > 0 then c.(interval := n) else c), holder := InitJobs)
  {
  }

  lemma StepRecordJobs(s: State, jobs: seq<Job>)
    requires !s.main.Gone? && s.holder == InitJobs && HostUnlocked(s)
    ensures var c := s.host.value;
      && Enabled(s, RecordJobs(jobs))
      && Next(s, RecordJobs(jobs)).s == s.(host := Some(c.(jobs := c.jobs + jobs)), holder := InitAnswer)
  {
  }

  lemma StepAnswerInit(s: State)
    requires !s.main.Gone? && s.holder == InitAnswer && HostUnlocked(s)
    ensures Enabled(s, AnswerInit) && Next(s, AnswerInit).s == s.(holder := Free)
  {
  }

  lemma StepLaunch(s: State, isJob: bool)
    requires !s.main.Gone? && s.holder.Launching? && s.host.Some?
    requires var c := s.host.value;
      if isJob then s.holder.next < |c.jobs| else s.holder.next == |c.jobs| && c.interval > 0
    ensures var a := if isJob then LaunchNext else LaunchWatchdog;
      && Enabled(s, a)
      && Next(s, a).s == s.(host := Some(Launch(s.host.value, isJob)), holder := Launching(s.holder.next + 1))
  {
  }

  lemma StepFinishStart(s: State)
    requires !s.main.Gone? && s.holder.Launching? && s.host.Some? && s.holder.next == Goroutines(s.host.value)
    ensures Enabled(s, FinishStart)
    ensures Next(s, FinishStart).s
            == s.(host := Some(s.host.value.(locked := false)), phase := Started, holder := Free)
  {
  }

  lemma StepCallStop(s: State, shutdown: bool)
    requires s.main == Select && s.holder == Free && s.queued == 0
    ensures Enabled(s, Arrive) && Next(s, Arrive).s == s.(queued := 1)
    ensures var s1 := s.(queued := 1);
      && Enabled(s1, CallStop(shutdown))
      && Next(s1, CallStop(shutdown)).s
         == if s.phase == Started then s.(holder := StopTake(shutdown))
            else s.(phase := Stopped, posting := s.posting + (if shutdown then 1 else 0))
  {
  }

  lemma StepCallCancel(s: State)
    requires !s.main.Gone? && s.holder.StopCancel? && s.host.Some?
    ensures Enabled(s, CallCancel)
    ensures Next(s, CallCancel).s
            == s.(host := Some(s.host.value.(ctxDone := true)), holder := StopWait(s.holder.shutdown))
  {
  }

  lemma StepWaitReturns(s: State)
    requires !s.main.Gone? && s.holder.StopWait? && s.host.Some? && s.host.value.wg == 0
    ensures Enabled(s, WaitReturns) && Next(s, WaitReturns).s == s.(holder := StopCall(s.holder.shutdown))
  {
  }

  lemma StepStopReturns(s: State, ok: bool)
    requires !s.main.Gone? && s.holder.StopCall?
    ensures Enabled(s, StopReturns(ok))
    ensures Next(s, StopReturns(ok)).s
            == if ok then
                 s.(phase := Stopped, holder := Free, posting := s.posting + (if s.holder.shutdown then 1 else 0))
               else s.(holder := Free)
  {
  }

  /** From `before` to `after` nothing was done but cancelling, and goroutines moving. */
  ghost predicate OnlyMoved(before: Host, after: Host) {
    && after == before.(cancelSet := after.cancelSet, ctxDone := after.ctxDone, gs := after.gs, wg := after.wg)
    && |after.gs| == |before.gs|
    && (forall g :: 0 <= g < |after.gs| ==>
          after.gs[g].isJob == before.gs[g].isJob && after.gs[g].runs >= before.gs[g].runs)
  }

  /** What a Stop from Started makes of the host: kept, cancelled, and with a completed run of every job. */
  ghost predicate Finished(before: Host, after: Host) {
    && OnlyMoved(before, after) && !after.cancelSet && (before.cancelSet ==> after.ctxDone)
    && |after.jobs| <= |after.gs| && (forall g :: 0 <= g < |after.jobs| ==> after.gs[g].runs > 0)
  }

  /** One goroutine moves. */
  lemma OneMoved(c: Host, g: nat, y: Goroutine, wg: int)
    requires g < |c.gs| && y.isJob == c.gs[g].isJob && y.runs >= c.gs[g].runs
    ensures OnlyMoved(c, c.(gs := c.gs[g := y], wg := wg))
  {
  }

  lemma MovedOn(a: Host, b: Host, c: Host)
    requires OnlyMoved(a, b) && OnlyMoved(b, c)
    ensures OnlyMoved(a, c)
  {
  }

  class ModuleServer {
    const id: string
    var state: Phase
    var host: Option<Host>
    var dropped: seq<Host>
    var shutdown: bool                    // a token waits in the shutdown channel

    ghost var machine: State
    ghost var run: seq<Action>

    /** The ghost run leads to the ghost state. */
    ghost predicate Runs()
      reads this`machine, this`run
    {
      Legal(Initial(id), run) && After(Initial(id), run) == machine
    }

    /** The fields are what the machine says, apart from who holds the lock. */
    ghost predicate Agrees()
      reads this
    {
      && machine.id == id && machine.phase == state && machine.host == host && machine.dropped == dropped
      && machine.shutdownToken == shutdown && machine.main == Select && machine.queued == 0
    }

    ghost predicate Valid()
      reads this
    {
      Runs() && Agrees() && machine.holder == Free && machine.posting == 0
    }

    constructor (id: string)
      ensures Valid() && this.id == id && state == Created && host == None && dropped == [] && !shutdown && run == []
    {
      this.id := id;
      state, host, dropped, shutdown := Created, None, [], false;
      machine, run := Initial(id), [];
    }

    /** One machine step. */
    ghost method Take(a: Action)
      requires Runs() && Enabled(machine, a)
      modifies this`machine, this`run
      ensures Runs() && machine == Next(old(machine), a).s && run == old(run) + [a]
    {
      RT.OneMore(Initial(id), run, a);
      machine, run := Next(machine, a).s, run + [a];
    }

    /** `initOk` and `jobs` are what Module.Init and Scheduled.Jobs return. */
    method Init(req: InitRequest, configOk: bool, dialOk: bool, initOk: bool, jobs: seq<Job>) returns (code: Code)
      requires Valid()
      modifies this
      ensures Valid() && old(run) <= run && shutdown == old(shutdown)
      ensures var acceptable := old(state) == Created && req.moduleId == id && req.protocol == 1;
        && (code == OK <==> acceptable && configOk && dialOk && initOk)
        && (code == FailedPrecondition <==> !acceptable)
        && (code == InvalidArgument <==> acceptable && !configOk)
        && (code == Unavailable <==> acceptable && configOk && !dialOk)
        && (code == Internal <==> acceptable && configOk && dialOk && !initOk)
      ensures code == OK ==> state == Inited && dropped == old(dropped)
                             && host == Some(NEW_HOST.(interval := req.watchdogSeconds, jobs := jobs))
      ensures code != OK && code != Internal ==> host == old(host) && dropped == old(dropped)
      ensures code != OK ==> state == old(state)
      ensures code == Internal ==> host == None && dropped == old(dropped) + [NEW_HOST.(open := false)]
    {
      hide Runs;
      Take(Arrive);
      Take(CallInit(req, configOk, dialOk));
      if state != Created {
        return FailedPrecondition;
      }
      if req.moduleId != id {
        return FailedPrecondition;
      }
      if req.protocol != PROTOCOL {
        return FailedPrecondition;
      }
      if !configOk {
        return InvalidArgument;
      }
      if !dialOk {
        return Unavailable;
      }
      host := Some(NEW_HOST);
      code := CallModuleInit(req, initOk, jobs);
    }

    /** Init from the module's callback on. */
    method CallModuleInit(req: InitRequest, initOk: bool, jobs: seq<Job>) returns (code: Code)
      requires Runs() && Agrees() && machine.posting == 0 && state == Created && host == Some(NEW_HOST)
      requires machine.holder == InitCall(req.watchdogSeconds)
      modifies this
      ensures Valid() && old(run) <= run && shutdown == old(shutdown)
      ensures code == if initOk then OK else Internal
      ensures initOk ==> state == Inited && dropped == old(dropped)
                         && host == Some(NEW_HOST.(interval := req.watchdogSeconds, jobs := jobs))
      ensures !initOk ==> state == Created && host == None && dropped == old(dropped) + [NEW_HOST.(open := false)]
    {
      hide Runs;
      Take(InitReturns(initOk));
      if !initOk {
        dropped := dropped + [host.value.(open := false)];
        host := None;
        return Internal;
      }
      state := Inited;
      RecordInit(req, jobs);
      return OK;
    }

    /** The watchdog cadence, the jobs and the answer. */
    method RecordInit(req: InitRequest, jobs: seq<Job>)
      requires Runs() && Agrees() && machine.posting == 0 && state == Inited && host == Some(NEW_HOST)
      requires machine.holder == InitInterval(req.watchdogSeconds)
      modifies this
      ensures Valid() && old(run) <= run && shutdown == old(shutdown) && state == Inited && dropped == old(dropped)
      ensures host == Some(NEW_HOST.(interval := req.watchdogSeconds, jobs := jobs))
    {
      hide Runs, Enabled, Next;
      SetWatchdogInterval(req.watchdogSeconds);
      AddJobs(jobs);
      StepAnswerInit(machine);
      Take(AnswerInit);
    }

    method SetWatchdogInterval(seconds: nat)
      requires Runs() && Agrees() && machine.holder == InitInterval(seconds)
      requires host == Some(NEW_HOST)
      modifies this`host, this`machine, this`run
      ensures Runs() && Agrees() && machine.holder == InitJobs && old(run) <= run
      ensures machine.posting == old(machine).posting && host == Some(NEW_HOST.(interval := seconds))
    {
      hide Runs, Enabled, Next;
      StepRecordInterval(machine);
      if seconds > 0 {
        host := Some(host.value.(interval := seconds));
      }
      Take(RecordInterval);
    }

    method AddJobs(jobs: seq<Job>)
      requires Runs() && Agrees() && machine.holder == InitJobs
      requires host.Some? && !host.value.locked && host.value.jobs == []
      modifies this`host, this`machine, this`run
      ensures Runs() && Agrees() && machine.holder == InitAnswer && old(run) <= run
      ensures machine.posting == old(machine).posting && host == Some(old(host).value.(jobs := jobs))
    {
      hide Runs, Enabled, Next;
      StepRecordJobs(machine, jobs);
      assert [] + jobs == jobs;
      host := Some(host.value.(jobs := host.value.jobs + jobs));
      Take(RecordJobs(jobs));
    }

    /** Where the ghost run has led, the machine's invariant holds. */
    lemma Reached()
      requires Runs()
      ensures RI.StateInv(machine)
    {
      hide Legal, After, RI.HostInv, RI.PhaseInv, RI.MainInv;
      RR.EveryRunIsOrdered(id, run);
    }

    lemma ReadyToStart()
      requires Valid() && state == Inited
      ensures host.Some? && RI.Idling(host.value)
    {
      hide Runs, RI.HostInv, RI.MainInv;
      Reached();
    }

    method Start(startOk: bool) returns (code: Code)
      requires Valid()
      modifies this
      ensures Valid() && old(run) <= run && shutdown == old(shutdown) && dropped == old(dropped)
      ensures code == if old(state) != Inited then FailedPrecondition else if startOk then OK else Internal
      ensures code != OK ==> state == old(state) && host == old(host)
      ensures code == OK ==> state == Started && host.Some? && old(host).Some?
                             && AllLaunched(old(host).value, host.value)
    {
      hide Runs, AllLaunched;
      ghost var before := host;
      if state == Inited { ReadyToStart(); }
      Take(Arrive);
      Take(CallStart);
      if state != Inited {
        return FailedPrecondition;
      }
      Take(StartReturns(startOk));
      if !startOk {
        return Internal;
      }
      StartJobs();
      return OK;
    }

    /** Every job and, if asked for, the watchdog has a goroutine that has not moved; nothing else changed. */
    ghost predicate AllLaunched(before: Host, after: Host) {
      && |after.gs| == Goroutines(before) && after.wg == before.wg + |after.gs|
      && (forall g :: 0 <= g < |after.gs| ==>
            after.gs[g] == if g < |before.jobs| then Goroutine(true, Fresh, 0) else Goroutine(false, Waiting, 0))
      && after == before.(cancelSet := true, started := true, gs := after.gs, wg := after.wg)
    }

    /** startJobs, and Start's return. */
    method StartJobs()
      requires Runs() && Agrees() && machine.posting == 0 && machine.holder == Runtime.StartJobs
      requires state == Inited && host.Some? && RI.Idling(host.value)
      modifies this
      ensures Valid() && old(run) <= run && shutdown == old(shutdown) && dropped == old(dropped)
      ensures state == Started && host.Some? && AllLaunched(old(host).value, host.value)
    {
      hide Runs;
      ghost var c := host.value;
      Take(BeginJobs);
      host := Some(host.value.(cancelSet := true, started := true, ctxDone := false, locked := true));
      LaunchJobs(c);
      FinishJobs();
    }

    /** The watchdog, the unlocking and the return. */
    method FinishJobs()
      requires Runs() && Agrees() && machine.posting == 0 && state == Inited && host.Some? && host.value.locked
      requires machine.holder == Launching(|host.value.jobs|) && |host.value.gs| == |host.value.jobs|
      modifies this
      ensures Valid() && old(run) <= run && shutdown == old(shutdown) && dropped == old(dropped) && state == Started
      ensures var c := old(host).value;
        host == Some((if c.interval > 0 then Launch(c, false) else c).(locked := false))
    {
      hide Runs, Enabled, Next;
      if host.value.interval > 0 {
        StepLaunch(machine, false);
        Take(LaunchWatchdog);
        host := Some(Launch(host.value, false));
      }
      StepFinishStart(machine);
      host := Some(host.value.(locked := false));
      state := Started;
      Take(FinishStart);
    }

    /** The launch loop, with hostClient.mu held. */
    method LaunchJobs(ghost c: Host)
      requires Runs() && Agrees() && machine.posting == 0 && machine.holder == Launching(0) && state == Inited
      requires host == Some(c.(cancelSet := true, started := true, ctxDone := false, locked := true)) && c.gs == []
      modifies this`host, this`machine, this`run
      ensures Runs() && Agrees() && machine.posting == 0 && old(run) <= run
      ensures host.Some? && machine.holder == Launching(|c.jobs|) && |host.value.gs| == |c.jobs|
      ensures forall g :: 0 <= g < |c.jobs| ==> host.value.gs[g] == Goroutine(true, Fresh, 0)
      ensures host.value == c.(cancelSet := true, started := true, ctxDone := false, locked := true,
                               gs := host.value.gs, wg := c.wg + |c.jobs|)
    {
      for i := 0 to |host.value.jobs|
        invariant Runs() && Agrees() && machine.posting == 0 && old(run) <= run
        invariant host.Some? && machine.holder == Launching(i) && |host.value.gs| == i
        invariant forall g :: 0 <= g < i ==> host.value.gs[g] == Goroutine(true, Fresh, 0)
        invariant host.value == c.(cancelSet := true, started := true, ctxDone := false, locked := true,
                                   gs := host.value.gs, wg := c.wg + i)
      {
        LaunchJob();
      }
    }

    /** launchJobLocked. */
    method LaunchJob()
      requires Runs() && Agrees() && host.Some?
      requires machine.holder.Launching? && machine.holder.next < |host.value.jobs|
      modifies this`host, this`machine, this`run
      ensures Runs() && Agrees() && old(run) <= run && machine.posting == old(machine).posting
      ensures machine.holder == Launching(old(machine).holder.next + 1) && host == Some(Launch(old(host).value, true))
    {
      hide Runs, Enabled, Next;
      StepLaunch(machine, true);
      Take(LaunchNext);
      host := Some(Launch(host.value, true));
    }

    /** Nothing the retained hostClient launched is live. */
    ghost predicate Quiet()
      reads this`host
    {
      host.Some? ==> host.value.wg == 0 && RI.AllDone(host.value.gs)
    }

    lemma QuietUnlessStarted()
      requires Valid() && (state != Started || (host.Some? && !host.value.cancelSet))
      ensures Quiet()
    {
      hide Runs;
      Reached();
      if host.Some? { RI.LiveZero(host.value.gs); }
    }

    lemma StartedHasHost()
      requires Valid() && state == Started
      ensures host.Some? && !host.value.locked
    {
      hide Runs, RI.HostInv, RI.MainInv;
      Reached();
    }

    method Stop(stopOk: bool) returns (code: Code)
      requires Valid()
      modifies this
      ensures Valid() && old(run) <= run && shutdown == old(shutdown) && dropped == old(dropped) && Quiet()
      ensures code == if old(state) == Started && !stopOk then Internal else OK
      ensures state == if code == OK then Stopped else old(state)
      ensures if old(state) != Started then host == old(host)
              else host.Some? && old(host).Some? && Finished(old(host).value, host.value)
    {
      code := StopLocked(false, stopOk);
    }

    method Shutdown(stopOk: bool) returns (code: Code)
      requires Valid()
      modifies this
      ensures Valid() && old(run) <= run && dropped == old(dropped) && Quiet()
      ensures code == if old(state) == Started && !stopOk then Internal else OK
      ensures state == (if code == OK then Stopped else old(state)) && (shutdown <==> old(shutdown) || code == OK)
      ensures if old(state) != Started then host == old(host)
              else host.Some? && old(host).Some? && Finished(old(host).value, host.value)
    {
      code := StopLocked(true, stopOk);
      if code != OK {
        return;
      }
      hide Runs, Finished;
      Take(PostToken);
      shutdown := true;
    }

    /** stopLocked; a Shutdown leaves its token to be posted. */
    method StopLocked(shutdownRpc: bool, stopOk: bool) returns (code: Code)
      requires Valid()
      modifies this
      ensures Runs() && Agrees() && machine.holder == Free && old(run) <= run
      ensures shutdown == old(shutdown) && dropped == old(dropped) && Quiet()
      ensures machine.posting == if shutdownRpc && code == OK then 1 else 0
      ensures code == if old(state) == Started && !stopOk then Internal else OK
      ensures state == if code == OK then Stopped else old(state)
      ensures if old(state) != Started then host == old(host)
              else host.Some? && old(host).Some? && Finished(old(host).value, host.value)
    {
      hide Runs, Quiet, Finished, Enabled, Next;
      if state == Started { StartedHasHost(); } else { QuietUnlessStarted(); }
      StepCallStop(machine, shutdownRpc);
      Take(Arrive);
      Take(CallStop(shutdownRpc));
      if state != Started {
        state := Stopped;
        return OK;
      }
      StopJobs(shutdownRpc);
      StepStopReturns(machine, stopOk);
      Take(StopReturns(stopOk));
      if !stopOk {
        return Internal;
      }
      state := Stopped;
      return OK;
    }

    /** stopJobs: cancel, wait, and then Module.Stop may be called. */
    method StopJobs(shutdownRpc: bool)
      requires Runs() && Agrees() && machine.posting == 0 && machine.holder == StopTake(shutdownRpc)
      requires state == Started && host.Some? && !host.value.locked
      modifies this`host, this`machine, this`run
      ensures Runs() && Agrees() && machine.posting == 0 && machine.holder == StopCall(shutdownRpc) && old(run) <= run
      ensures host.Some? && Quiet() && Finished(old(host).value, host.value)
    {
      hide Runs, Quiet;
      Take(TakeCancel);
      if host.value.cancelSet {
        host := Some(host.value.(cancelSet := false));
        CancelAndWait(shutdownRpc);
      }
      QuietInStop();
      JobsRan();
    }

    method CancelAndWait(shutdownRpc: bool)
      requires Runs() && Agrees() && machine.posting == 0 && machine.holder == StopCancel(shutdownRpc)
      requires state == Started && host.Some?
      modifies this`host, this`machine, this`run
      ensures Runs() && Agrees() && machine.posting == 0 && machine.holder == StopCall(shutdownRpc) && old(run) <= run
      ensures host.Some? && OnlyMoved(old(host).value, host.value) && host.value.ctxDone
      ensures host.value.cancelSet == old(host).value.cancelSet
    {
      hide Runs, Enabled, Next;
      StepCallCancel(machine);
      Take(CallCancel);
      host := Some(host.value.(ctxDone := true));
      WaitForJobs(shutdownRpc);
      StepWaitReturns(machine);
      Take(WaitReturns);
    }

    lemma JobsRan()
      requires Runs() && Agrees() && machine.holder.StopCall? && host.Some?
      ensures !host.value.cancelSet && |host.value.jobs| <= |host.value.gs|
      ensures forall g :: 0 <= g < |host.value.jobs| ==> host.value.gs[g].runs > 0
    {
      hide Runs;
      Reached();
      RI.InStopCall(machine);
    }

    lemma QuietInStop()
      requires Runs() && Agrees() && machine.holder.StopCall? && host.Some?
      ensures Quiet()
    {
      hide Runs;
      Reached();
      RI.LiveZero(host.value.gs);
    }

    /** The goroutines move, one step at a time, until the WaitGroup is empty. */
    method WaitForJobs(shutdownRpc: bool)
      requires Runs() && Agrees() && machine.posting == 0 && machine.holder == StopWait(shutdownRpc) && host.Some?
      requires state == Started
      modifies this`host, this`machine, this`run
      ensures Runs() && Agrees() && machine.posting == 0 && machine.holder == StopWait(shutdownRpc) && old(run) <= run
      ensures host.Some? && host.value.wg == 0 && OnlyMoved(old(host).value, host.value)
      ensures host.value.cancelSet == old(host).value.cancelSet && host.value.ctxDone == old(host).value.ctxDone
    {
      while host.value.wg != 0
        invariant Runs() && Agrees() && machine.posting == 0 && machine.holder == StopWait(shutdownRpc)
        invariant host.Some? && old(run) <= run && OnlyMoved(old(host).value, host.value)
        invariant host.value.cancelSet == old(host).value.cancelSet && host.value.ctxDone == old(host).value.ctxDone
        decreases RT.Weight(host.value.gs)
      {
        hide Runs, OnlyMoved;
        Reached();
        RT.WaitersCancelled(machine);
        var g := FirstLive(host.value.gs);
        ghost var c := host.value;
        MoveJob(g);
        MovedOn(old(host).value, c, host.value);
      }
    }

    method FirstLive(gs: seq<Goroutine>) returns (g: nat)
      requires Live(gs) > 0
      ensures g < |gs| && gs[g].pc != Done
    {
      RI.LiveZero(gs);
      g := 0;
      while gs[g].pc == Done
        invariant g < |gs| && forall j :: 0 <= j < g ==> gs[j].pc == Done
        decreases |gs| - g
      {
        assert exists j :: 0 <= j < |gs| && gs[j].pc != Done;
        g := g + 1;
      }
    }

    /** One goroutine takes its own next step after cancellation. */
    method MoveJob(g: nat)
      requires Runs() && Agrees() && host.Some? && g < |host.value.gs|
      requires host.value.gs[g].pc != Done && host.value.ctxDone
      modifies this`host, this`machine, this`run
      ensures Runs() && Agrees() && host.Some? && old(run) <= run
      ensures machine.posting == old(machine).posting && machine.holder == old(machine).holder
      ensures RT.Weight(host.value.gs) < RT.Weight(old(host).value.gs)
      ensures OnlyMoved(old(host).value, host.value)
      ensures host.value.cancelSet == old(host).value.cancelSet && host.value.ctxDone == old(host).value.ctxDone
    {
      hide Runs, Enabled, Next, OnlyMoved, RT.Stepped;
      var a := RT.OwnStep(g, host.value.gs[g].pc);
      OwnStepMoves(machine, g);
      RT.GoroutineStepsFinish(machine, a);
      Take(a);
      var c, y := host.value, RT.Stepped(host.value.gs[g], a);
      OneMoved(c, g, y, if y.pc == Done then c.wg - 1 else c.wg);
      host := Some(c.(gs := c.gs[g := y], wg := if y.pc == Done then c.wg - 1 else c.wg));
    }
  }
}
