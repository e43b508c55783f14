/**
 * The module runtime as a step machine: moduleServer's RPCs under `mu`, the job and
 * watchdog goroutines of a hostClient, and serve's exit path, interleaved arbitrarily.
 *
 * A run is a sequence of actions. Everything the runtime does not decide is part of the
 * action: which RPC gets the lock next, what a module callback or a dial returns, which
 * goroutine moves, which branch a select takes.
 */
module Runtime {
  import opened Common
  import opened RuntimeTrace

  /** The protocol integer this SDK speaks. */
  const PROTOCOL: uint32 := 1

  datatype InitRequest = InitRequest(moduleId: string, protocol: uint32, watchdogSeconds: uint32)

  /** A job goroutine is Fresh until its first Run; the watchdog starts in its select. */
  datatype Pc = Fresh | Running | Deciding | Waiting | Done

  /** `runs` counts completed calls of Run. */
  datatype Goroutine = Goroutine(isJob: bool, pc: Pc, runs: nat)

  /** One hostClient; `open` is its connection, `locked` its own mutex held across steps. */
  datatype Host = Host(
    open: bool, surfaces: seq<Surface>, jobs: seq<Job>, interval: nat,
    cancelSet: bool, ctxDone: bool, started: bool, locked: bool, wg: int, gs: seq<Goroutine>)

  /** Who holds moduleServer.mu, and where in its RPC it is. */
  datatype Holder =
    | Free
    | InitCall(seconds: nat) | InitInterval(seconds: nat) | InitJobs | InitAnswer
    | StartCall | StartJobs | Launching(next: nat)
    | StopTake(shutdown: bool) | StopCancel(shutdown: bool) | StopWait(shutdown: bool) | StopCall(shutdown: bool)

  /** serve's own goroutine after it printed the handshake line. */
  datatype MainPc =
    | Select | Draining | ExitTake | ExitCancel | ExitWait | ExitClose
    | Gone(status: int)

  datatype State = State(
    id: string,
    phase: Phase, holder: Holder,
    host: Option<Host>,   // what moduleServer.host points to
    dropped: seq<Host>,   // the hostClients of failed Init attempts, which module code may still hold
    queued: nat,          // RPCs admitted and waiting for mu
    posting: nat,         // Shutdown RPCs that released mu and have yet to post their token
    shutdownToken: bool, hostLostToken: bool,
    main: MainPc)

  /** A step's new state and the events it records, in order. */
  datatype Step = Step(s: State, events: Trace)

  datatype Cause = ShutdownAsked | CoreLost | Signal

  datatype Action =
    | Arrive
    | CallInit(req: InitRequest, configOk: bool, dialOk: bool)
    | InitReturns(ok: bool) | RecordInterval | RecordJobs(jobs: seq<Job>) | AnswerInit
    | CallStart | StartReturns(ok: bool) | BeginJobs | LaunchNext | LaunchWatchdog | FinishStart
    | CallStop(shutdown: bool) | TakeCancel | CallCancel | WaitReturns | StopReturns(ok: bool)
    | PostToken
    | Declare(h: nat, surfaces: seq<Surface>)
    | RunBegins(g: nat) | RunEnds(g: nat) | Decide(g: nat, again: bool) | TimerFires(g: nat) | SeesCancel(g: nat)
    | LoseHost
    | Wake(cause: Cause) | ServerFails | Drained
    | ExitTakes | ExitCancels | ExitWaitReturns | ExitCloses

  const NEW_HOST := Host(true, [], [], 0, false, false, false, false, 0, [])

  function Initial(id: string): State {
    State(id, Created, Free, None, [], 0, 0, false, false, Select)
  }

  /** The code Init refuses a request with before it calls the module, or OK. */
  function InitVerdict(id: string, phase: Phase, req: InitRequest, configOk: bool, dialOk: bool): Code {
    if phase != Created then FailedPrecondition
    else if req.moduleId != id then FailedPrecondition
    else if req.protocol != PROTOCOL then FailedPrecondition
    else if !configOk then InvalidArgument
    else if !dialOk then Unavailable
    else OK
  }

  // ---- Enabledness ----

  /** hostClient.mu can be taken. */
  predicate HostUnlocked(s: State) { s.host.Some? && !s.host.value.locked }

  predicate At(s: State, g: nat, pc: Pc) {
    s.host.Some? && g < |s.host.value.gs| && s.host.value.gs[g].pc == pc
  }

  /** The process runs and some RPC is waiting for a free lock. */
  predicate CanLock(s: State) { s.holder == Free && s.queued > 0 }

  /** How many goroutines startJobs launches. */
  function Goroutines(c: Host): nat { |c.jobs| + (if c.interval > 0 then 1 else 0) }

  /** The goroutine steps. They need neither moduleServer.mu nor hostClient.mu. */
  predicate GoroutineStep(a: Action) {
    a.RunBegins? || a.RunEnds? || a.Decide? || a.TimerFires? || a.SeesCancel?
  }

  predicate Enabled(s: State, a: Action) {
    && !s.main.Gone?
    && match a
       case Arrive => s.main == Select
       case CallInit(_, _, _) => CanLock(s)
       case InitReturns(_) => s.holder.InitCall? && s.host.Some?
       case RecordInterval => s.holder.InitInterval? && HostUnlocked(s)
       case RecordJobs(_) => s.holder == InitJobs && HostUnlocked(s)
       case AnswerInit => s.holder == InitAnswer && HostUnlocked(s)
       case CallStart => CanLock(s)
       case StartReturns(_) => s.holder == StartCall
       case BeginJobs => s.holder == StartJobs && HostUnlocked(s)
       case LaunchNext => s.holder.Launching? && s.host.Some? && s.holder.next < |s.host.value.jobs|
       case LaunchWatchdog =>
         s.holder.Launching? && s.host.Some? && s.holder.next == |s.host.value.jobs| && s.host.value.interval > 0
       case FinishStart => s.holder.Launching? && s.host.Some? && s.holder.next == Goroutines(s.host.value)
       case CallStop(_) => CanLock(s)
       case TakeCancel => s.holder.StopTake? && HostUnlocked(s)
       case CallCancel => s.holder.StopCancel? && s.host.Some?
       case WaitReturns => s.holder.StopWait? && s.host.Some? && s.host.value.wg == 0
       case StopReturns(_) => s.holder.StopCall?
       case PostToken => s.posting > 0
       case Declare(h, _) => h < |s.dropped| || (h == |s.dropped| && HostUnlocked(s))
       case RunBegins(g) => At(s, g, Fresh)
       case RunEnds(g) => At(s, g, Running)
       case Decide(g, _) => At(s, g, Deciding)
       case TimerFires(g) => At(s, g, Waiting)
       case SeesCancel(g) => At(s, g, Waiting) && s.host.value.ctxDone
       case LoseHost => s.host.Some? && s.phase != Created
       case Wake(ShutdownAsked) => s.main == Select && s.shutdownToken
       case Wake(CoreLost) => s.main == Select && s.hostLostToken
       case Wake(Signal) => s.main == Select
       case ServerFails => s.main == Select
       case Drained => s.main == Draining && s.holder == Free && s.queued == 0 && s.posting == 0
       case ExitTakes => s.main == ExitTake && HostUnlocked(s)
       case ExitCancels => s.main == ExitCancel && s.host.Some?
       case ExitWaitReturns => s.main == ExitWait && s.host.Some? && s.host.value.wg == 0
       case ExitCloses => s.main == ExitClose && s.host.Some?
  }

  // ---- Effect ----

  function Quiet(s: State): Step { Step(s, []) }

  function PutHost(s: State, c: Host): State { s.(host := Some(c)) }

  /** The RPC that was waiting takes mu. */
  function Dequeue(s: State): State { s.(queued := if s.queued > 0 then s.queued - 1 else 0) }

  /** The RPC records `before`, releases mu and answers. */
  function Answer(s: State, before: Trace, rpc: Rpc, code: Code): Step {
    Step(s.(holder := Free), before + [Returned(rpc, code)])
  }

  /** stopLocked succeeded: Stop answers, Shutdown releases mu and will post its token. */
  function StopDone(s: State, before: Trace, shutdown: bool): Step {
    if shutdown then Step(s.(phase := Stopped, holder := Free, posting := s.posting + 1), before)
    else Answer(s.(phase := Stopped), before, StopRpc, OK)
  }

  function StopRpcOf(shutdown: bool): Rpc { if shutdown then ShutdownRpc else StopRpc }

  /** Goroutine `g` of the retained host becomes `x`; ending it calls WaitGroup.Done. */
  function MoveGoroutine(s: State, g: nat, x: Goroutine): State
    requires s.host.Some? && g < |s.host.value.gs|
  {
    var c := s.host.value;
    PutHost(s, c.(gs := c.gs[g := x], wg := if x.pc == Done then c.wg - 1 else c.wg))
  }

  /** A goroutine is added to the WaitGroup before it starts. */
  function Launch(c: Host, isJob: bool): Host {
    c.(wg := c.wg + 1, gs := c.gs + [Goroutine(isJob, if isJob then Fresh else Waiting, 0)])
  }

  function NextInit(s: State, req: InitRequest, configOk: bool, dialOk: bool): Step {
    var code := InitVerdict(s.id, s.phase, req, configOk, dialOk);
    var s := Dequeue(s);
    if code != OK then Answer(s, [], InitRpc, code)
    else
      Step(PutHost(s, NEW_HOST).(holder := InitCall(req.watchdogSeconds)), [InitBegin(|s.dropped|)])
  }

  function NextInitReturns(s: State, ok: bool): Step
    requires s.holder.InitCall? && s.host.Some?
  {
    var h := |s.dropped|;
    if ok then Step(s.(phase := Inited, holder := InitInterval(s.holder.seconds)), [InitOk(h)])
    else
      var failed := s.host.value.(open := false);
      Answer(s.(host := None, dropped := s.dropped + [failed]), [InitFailed(h)], InitRpc, Internal)
  }

  function NextRecordInterval(s: State): Step
    requires s.holder.InitInterval? && s.host.Some?
  {
    var n := s.holder.seconds;
    var c := if n > 0 then s.host.value.(interval := n) else s.host.value;
    Step(PutHost(s, c).(holder := InitJobs), [IntervalSet(n)])
  }

  function NextRecordJobs(s: State, jobs: seq<Job>): Step
    requires s.host.Some?
  {
    Step(PutHost(s, s.host.value.(jobs := s.host.value.jobs + jobs)).(holder := InitAnswer),
         [JobsAdded(jobs)])
  }

  function NextStart(s: State): Step {
    var s := Dequeue(s);
    if s.phase != Inited then Answer(s, [], StartRpc, FailedPrecondition)
    else Step(s.(holder := StartCall), [StartBegin])
  }

  function NextStartReturns(s: State, ok: bool): Step {
    if ok then Step(s.(holder := StartJobs), [StartOk])
    else Answer(s, [StartFailed], StartRpc, Internal)
  }

  function NextBeginJobs(s: State): Step
    requires s.host.Some?
  {
    var c := s.host.value;
    if c.cancelSet then Answer(s.(phase := Started), [], StartRpc, OK)
    else
      Step(PutHost(s, c.(cancelSet := true, started := true, ctxDone := false, locked := true))
           .(holder := Launching(0)), [JobsStarting(|s.dropped|)])
  }

  /** startJobs launches one goroutine, still holding hostClient.mu. */
  function NextLaunch(s: State, isJob: bool): Step
    requires s.holder.Launching? && s.host.Some?
  {
    Step(PutHost(s, Launch(s.host.value, isJob)).(holder := Launching(s.holder.next + 1)),
         [Launched(|s.host.value.gs|)])
  }

  function NextFinishStart(s: State): Step
    requires s.host.Some?
  {
    Answer(PutHost(s, s.host.value.(locked := false)).(phase := Started), [], StartRpc, OK)
  }

  function NextStop(s: State, shutdown: bool): Step {
    var s := Dequeue(s);
    if s.phase != Started then StopDone(s, [StopNoop], shutdown)
    else Quiet(s.(holder := StopTake(shutdown)))
  }

  function NextTakeCancel(s: State): Step
    requires s.holder.StopTake? && s.host.Some?
  {
    var c := s.host.value;
    if c.cancelSet then
      Quiet(PutHost(s, c.(cancelSet := false)).(holder := StopCancel(s.holder.shutdown)))
    else Step(s.(holder := StopCall(s.holder.shutdown)), [StopBegin])
  }

  function NextCallCancel(s: State): Step
    requires s.holder.StopCancel? && s.host.Some?
  {
    Quiet(PutHost(s, s.host.value.(ctxDone := true)).(holder := StopWait(s.holder.shutdown)))
  }

  function NextStopReturns(s: State, ok: bool): Step
    requires s.holder.StopCall?
  {
    if ok then StopDone(s, [StopOk], s.holder.shutdown)
    else Answer(s, [StopFailed], StopRpcOf(s.holder.shutdown), Internal)
  }

  /** UIBroker.Declare on one hostClient. */
  function DeclareOn(c: Host, surfaces: seq<Surface>): Host {
    if c.started then c else c.(surfaces := c.surfaces + surfaces)
  }

  function NextDeclare(s: State, h: nat, surfaces: seq<Surface>): Step
    requires h < |s.dropped| || (h == |s.dropped| && s.host.Some?)
  {
    var c := if h < |s.dropped| then s.dropped[h] else s.host.value;
    var c' := DeclareOn(c, surfaces);
    Step(if h < |s.dropped| then s.(dropped := s.dropped[h := c']) else PutHost(s, c'),
         [if c.started then DeclareRefused(h) else Declared(h, surfaces)])
  }

  function NextGoroutine(s: State, a: Action): Step
    requires GoroutineStep(a) && s.host.Some? && a.g < |s.host.value.gs|
  {
    var x := s.host.value.gs[a.g];
    match a
    case RunBegins(g) => Step(MoveGoroutine(s, g, x.(pc := Running)), [RunBegin(g)])
    case RunEnds(g) => Step(MoveGoroutine(s, g, x.(pc := Deciding, runs := x.runs + 1)), [RunEnd(g)])
    case Decide(g, again) =>
      if again then Quiet(MoveGoroutine(s, g, x.(pc := Waiting)))
      else Step(MoveGoroutine(s, g, x.(pc := Done)), [Ended(g)])
    case TimerFires(g) =>
      // a watchdog tick stays in the select loop
      if x.isJob then Step(MoveGoroutine(s, g, x.(pc := Running)), [RunBegin(g)]) else Quiet(s)
    case SeesCancel(g) => Step(MoveGoroutine(s, g, x.(pc := Done)), [Ended(g)])
  }

  function NextWake(s: State, cause: Cause): Step {
    match cause
    case ShutdownAsked => Quiet(s.(main := Draining, shutdownToken := false))
    case CoreLost => Quiet(s.(main := Draining, hostLostToken := false))
    case Signal => Quiet(s.(main := Draining))
  }

  function NextDrained(s: State): Step {
    if s.host.Some? then Quiet(s.(main := ExitTake)) else Step(s.(main := Gone(0)), [Exited(0)])
  }

  function NextExitTakes(s: State): Step
    requires s.host.Some?
  {
    var c := s.host.value;
    if c.cancelSet then Quiet(PutHost(s, c.(cancelSet := false)).(main := ExitCancel))
    else Quiet(s.(main := ExitClose))
  }

  function NextExitCancels(s: State): Step
    requires s.host.Some?
  {
    Quiet(PutHost(s, s.host.value.(ctxDone := true)).(main := ExitWait))
  }

  function NextExitCloses(s: State): Step
    requires s.host.Some?
  {
    Step(PutHost(s, s.host.value.(open := false)).(main := Gone(0)), [HostClosed(|s.dropped|), Exited(0)])
  }

  function Next(s: State, a: Action): Step
    requires Enabled(s, a)
  {
    match a
    case Arrive => Quiet(s.(queued := s.queued + 1))
    case CallInit(req, configOk, dialOk) => NextInit(s, req, configOk, dialOk)
    case InitReturns(ok) => NextInitReturns(s, ok)
    case RecordInterval => NextRecordInterval(s)
    case RecordJobs(jobs) => NextRecordJobs(s, jobs)
    case AnswerInit => Answer(s, [InitAnswered(|s.dropped|, s.host.value.surfaces)], InitRpc, OK)
    case CallStart => NextStart(s)
    case StartReturns(ok) => NextStartReturns(s, ok)
    case BeginJobs => NextBeginJobs(s)
    case LaunchNext => NextLaunch(s, true)
    case LaunchWatchdog => NextLaunch(s, false)
    case FinishStart => NextFinishStart(s)
    case CallStop(shutdown) => NextStop(s, shutdown)
    case TakeCancel => NextTakeCancel(s)
    case CallCancel => NextCallCancel(s)
    case WaitReturns => Step(s.(holder := StopCall(s.holder.shutdown)), [StopBegin])
    case StopReturns(ok) => NextStopReturns(s, ok)
    case PostToken => Step(s.(posting := s.posting - 1, shutdownToken := true), [Returned(ShutdownRpc, OK)])
    case Declare(h, surfaces) => NextDeclare(s, h, surfaces)
    case RunBegins(_) => NextGoroutine(s, a)
    case RunEnds(_) => NextGoroutine(s, a)
    case Decide(_, _) => NextGoroutine(s, a)
    case TimerFires(_) => NextGoroutine(s, a)
    case SeesCancel(_) => NextGoroutine(s, a)
    case LoseHost => Quiet(s.(hostLostToken := true))
    case Wake(cause) => NextWake(s, cause)
    case ServerFails => Step(s.(main := Gone(1)), [Exited(1)])
    case Drained => NextDrained(s)
    case ExitTakes => NextExitTakes(s)
    case ExitCancels => NextExitCancels(s)
    case ExitWaitReturns => Quiet(s.(main := ExitClose))
    case ExitCloses => NextExitCloses(s)
  }

  // ---- Runs ----

  /** Every action of `run` is enabled where it is taken. */
  predicate Legal(s: State, run: seq<Action>)
    decreases |run|
  {
    run == [] || (Enabled(s, run[0]) && Legal(Next(s, run[0]).s, run[1..]))
  }

  function After(s: State, run: seq<Action>): State
    requires Legal(s, run)
    decreases |run|
  {
    if run == [] then s else After(Next(s, run[0]).s, run[1..])
  }

  /** The events of a run. */
  function TraceOf(s: State, run: seq<Action>): Trace
    requires Legal(s, run)
    decreases |run|
  {
    if run == [] then [] else Next(s, run[0]).events + TraceOf(Next(s, run[0]).s, run[1..])
  }

  /** Goroutines that have not called WaitGroup.Done. */
  function Live(gs: seq<Goroutine>): nat {
    if gs == [] then 0 else Live(gs[..|gs| - 1]) + (if gs[|gs| - 1].pc == Done then 0 else 1)
  }
}
