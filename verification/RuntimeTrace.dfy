/**
 * What an observer of one module process may see.
 *
 * The runtime in `Runtime` records an event whenever it calls into the module,
 * starts or ends a job goroutine, opens or closes a host connection, or answers an RPC.
 * This module says, without mentioning the runtime's own state, which event may follow
 * which past: `Ordered` is the language of legal traces.
 */
module RuntimeTrace {
  import opened Common

  datatype Rpc = InitRpc | StartRpc | StopRpc | ShutdownRpc

  datatype Code = OK | FailedPrecondition | InvalidArgument | Unavailable | Internal

  datatype Surface = Surface(id: string, title: string, kind: string, data: Bytes)

  datatype Job = Job(name: string)

  /** `h` numbers the host connections in dialing order, `g` the goroutines in launch order. */
  datatype Event =
    | InitBegin(h: nat)                               // host dialed, Module.Init called
    | InitOk(h: nat)
    | InitFailed(h: nat)                              // Module.Init failed, host closed
    | IntervalSet(seconds: nat)                       // push-watchdog cadence, 0 when disabled
    | JobsAdded(jobs: seq<Job>)
    | InitAnswered(h: nat, surfaces: seq<Surface>)    // the surfaces carried by the response
    | Declared(h: nat, surfaces: seq<Surface>)
    | DeclareRefused(h: nat)
    | StartBegin | StartOk | StartFailed              // Module.Start
    | JobsStarting(h: nat)                            // startJobs took effect
    | Launched(g: nat)
    | RunBegin(g: nat) | RunEnd(g: nat)               // one call of Job.Run
    | Ended(g: nat)                                   // the goroutine called WaitGroup.Done
    | StopBegin | StopOk | StopFailed                 // Module.Stop
    | StopNoop                                        // stopping something never started
    | Returned(rpc: Rpc, code: Code)
    | HostClosed(h: nat)                              // on the graceful exit path
    | Exited(status: int)

  type Trace = seq<Event>

  datatype Phase = Created | Inited | Started | Stopped

  datatype Callback = Idle | InInit(h: nat) | InStart | InStop

  /** One launched goroutine: completed runs, whether a run is open, whether it called Done. */
  datatype Status = Status(ends: nat, running: bool, ended: bool)

  /** Everything about a past that decides what may come next. */
  datatype Ledger = Ledger(
    phase: Phase, callback: Callback,
    surfaces: seq<seq<Surface>>,                      // accepted declarations, one entry per connection opened
    closed: nat,                                      // connections closed
    initOk: Option<nat>, interval: Option<nat>, jobs: Option<seq<Job>>, answered: bool,
    startOk: bool, stopFailed: bool, jobsOn: Option<nat>,
    gs: seq<Status>, stopSeen: bool, exited: bool)

  const NOTHING := Ledger(Created, Idle, [], 0, None, None, None, false, false, false, None, [], false, false)

  function Opened(l: Ledger): nat { |l.surfaces| }

  // ---- What an event changes, field by field ----

  function PhaseAfter(p: Phase, e: Event): Phase {
    if e.InitOk? then Inited
    else if e.Returned? && e.rpc == StartRpc && e.code == OK then Started
    else if e.StopOk? || e.StopNoop? then Stopped
    else p
  }

  function CallbackAfter(c: Callback, e: Event): Callback {
    if e.InitBegin? then InInit(e.h)
    else if e.StartBegin? then InStart
    else if e.StopBegin? then InStop
    else if e.InitOk? || e.InitFailed? || e.StartOk? || e.StartFailed? || e.StopOk? || e.StopFailed? then Idle
    else c
  }

  function SurfacesAfter(surfaces: seq<seq<Surface>>, e: Event): seq<seq<Surface>> {
    if e.InitBegin? then surfaces + [[]]
    else if e.Declared? && e.h < |surfaces| then surfaces[e.h := surfaces[e.h] + e.surfaces]
    else surfaces
  }

  function StatusAfter(st: Status, e: Event): Status {
    if e.RunBegin? then st.(running := true)
    else if e.RunEnd? then st.(running := false, ends := st.ends + 1)
    else st.(ended := true)
  }

  function GoroutinesAfter(gs: seq<Status>, e: Event): seq<Status> {
    if e.Launched? then gs + [Status(0, false, false)]
    else if (e.RunBegin? || e.RunEnd? || e.Ended?) && e.g < |gs| then gs[e.g := StatusAfter(gs[e.g], e)]
    else gs
  }

  function Advance(l: Ledger, e: Event): Ledger {
    Ledger(
      PhaseAfter(l.phase, e), CallbackAfter(l.callback, e),
      SurfacesAfter(l.surfaces, e),
      if e.InitFailed? || e.HostClosed? then l.closed + 1 else l.closed,
      if e.InitOk? then Some(e.h) else l.initOk,
      if e.IntervalSet? then Some(e.seconds) else l.interval,
      if e.JobsAdded? then Some(e.jobs) else l.jobs,
      l.answered || e.InitAnswered?,
      l.startOk || e.StartOk?,
      l.stopFailed || e.StopFailed?,
      if e.JobsStarting? then Some(e.h) else l.jobsOn,
      GoroutinesAfter(l.gs, e),
      l.stopSeen || e.StopBegin? || (e.Returned? && (e.rpc == StopRpc || e.rpc == ShutdownRpc)),
      l.exited || e.Exited?)
  }

  function LedgerOf(t: Trace): Ledger {
    if t == [] then NOTHING else Advance(LedgerOf(t[..|t| - 1]), t[|t| - 1])
  }

  ghost predicate AllEnded(l: Ledger) {
    forall g :: 0 <= g < |l.gs| ==> l.gs[g].ended
  }

  /** Every declared job, and the watchdog if core asked for one, has a goroutine. */
  predicate EverythingLaunched(l: Ledger) {
    && l.jobs.Some? && l.interval.Some?
    && |l.gs| == |l.jobs.value| + (if l.interval.value > 0 then 1 else 0)
  }

  /** Every declared job has completed a run. */
  ghost predicate EveryJobRan(l: Ledger) {
    l.jobs.Some? ==> |l.jobs.value| <= |l.gs| && forall i :: 0 <= i < |l.jobs.value| ==> l.gs[i].ends > 0
  }

  /** Goroutine `g` may act: it is live and jobs are still permitted. */
  predicate MayAct(l: Ledger, g: nat, running: bool) {
    l.startOk && !l.stopSeen && g < |l.gs| && !l.gs[g].ended && l.gs[g].running == running
  }

  /** Event `e` may follow a past summarised by `l`. */
  ghost predicate Allowed(l: Ledger, e: Event) {
    && !l.exited
    && match e
       case InitBegin(h) => l.phase == Created && l.callback == Idle && h == Opened(l) == l.closed
       case InitOk(h) => l.phase == Created && l.callback == InInit(h)
       case InitFailed(h) => l.phase == Created && l.callback == InInit(h)
       case IntervalSet(_) => l.phase == Inited && l.interval == None
       case JobsAdded(_) => l.phase == Inited && l.jobs == None
       case InitAnswered(h, ss) => l.initOk == Some(h) && h < |l.surfaces| && ss == l.surfaces[h] && !l.answered
       case Declared(h, _) => h < Opened(l) && l.jobsOn != Some(h)
       case DeclareRefused(h) => l.jobsOn == Some(h)
       case StartBegin => l.phase == Inited && l.callback == Idle && !l.startOk && l.answered
       case StartOk => l.phase == Inited && l.callback == InStart && !l.startOk
       case StartFailed => l.phase == Inited && l.callback == InStart
       case JobsStarting(h) => l.startOk && l.initOk == Some(h) && l.jobsOn == None
       case Launched(g) => l.startOk && l.phase == Inited && !l.stopSeen && g == |l.gs|
       case RunBegin(g) => MayAct(l, g, false)
       case RunEnd(g) => MayAct(l, g, true)
       case Ended(g) => MayAct(l, g, false)
       case StopBegin =>
         l.phase == Started && l.callback == Idle && AllEnded(l) && EverythingLaunched(l) && EveryJobRan(l)
       case StopOk => l.phase == Started && l.callback == InStop
       case StopFailed => l.phase == Started && l.callback == InStop
       case StopNoop => l.phase != Started && l.callback == Idle && AllEnded(l)
       case Returned(InitRpc, c) =>
         && l.callback == Idle
         && (c == OK ==> l.phase == Inited && l.answered)
         && (c != OK && c != FailedPrecondition ==> l.phase == Created)
       case Returned(StartRpc, c) =>
         && l.callback == Idle
         && (c == OK <==> l.phase == Inited && l.startOk && EverythingLaunched(l))
         && (c == FailedPrecondition <==> l.phase != Inited)
         && (c == Internal <==> l.phase == Inited && !l.startOk)
       case Returned(_, c) =>  // Stop and Shutdown
         && AllEnded(l)
         && (if c == OK then l.phase == Stopped else c == Internal && l.phase == Started && l.stopFailed)
       case HostClosed(h) => AllEnded(l) && l.callback == Idle && l.initOk == Some(h) && Opened(l) == l.closed + 1
       case Exited(c) =>
         c == 0 ==> AllEnded(l) && l.callback == Idle && Opened(l) == l.closed && (l.gs != [] ==> EveryJobRan(l))
  }

  /** Every event is allowed by the events before it. */
  ghost predicate Ordered(t: Trace) {
    forall j :: 0 <= j < |t| ==> Allowed(LedgerOf(t[..j]), t[j])
  }

  lemma OrderedExtends(t: Trace, e: Event)
    requires Ordered(t) && Allowed(LedgerOf(t), e)
    ensures Ordered(t + [e]) && LedgerOf(t + [e]) == Advance(LedgerOf(t), e)
  {
    forall j | 0 <= j < |t + [e]| ensures Allowed(LedgerOf((t + [e])[..j]), (t + [e])[j]) {
      assert (t + [e])[..j] == t[..j];
      if j == |t| { assert t[..j] == t; }
    }
    assert (t + [e])[..|t|] == t;
  }
}
