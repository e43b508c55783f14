/**
 * What membership in the trace language means for the events themselves.
 * Nothing here mentions the runtime: these are facts about every ordered trace.
 */
module TraceLanguage {
  import opened Common
  import opened RuntimeTrace

  // ---- Counting events ----

  function Runs(t: Trace, g: nat): nat { multiset(t)[RunBegin(g)] }

  function Ends(t: Trace, g: nat): nat { multiset(t)[RunEnd(g)] }

  function OpenedIn(t: Trace): nat {
    if t == [] then 0 else OpenedIn(t[..|t| - 1]) + (if t[|t| - 1].InitBegin? then 1 else 0)
  }

  function ClosedIn(t: Trace): nat {
    if t == [] then 0
    else ClosedIn(t[..|t| - 1]) + (if t[|t| - 1].InitFailed? || t[|t| - 1].HostClosed? then 1 else 0)
  }

  function LaunchedIn(t: Trace): nat {
    if t == [] then 0 else LaunchedIn(t[..|t| - 1]) + (if t[|t| - 1].Launched? then 1 else 0)
  }

  /** The surfaces accepted on connection `h`, in the order they were declared. */
  function SurfacesOf(t: Trace, h: nat): seq<Surface> {
    if t == [] then []
    else
      var rest := SurfacesOf(t[..|t| - 1], h);
      var e := t[|t| - 1];
      if e.Declared? && e.h == h then rest + e.surfaces else rest
  }

  /** Module.Stop was called, or a Stop or Shutdown RPC was answered. */
  predicate StopMark(e: Event) {
    e == StopBegin || (e.Returned? && (e.rpc == StopRpc || e.rpc == ShutdownRpc))
  }

  predicate JobEvent(e: Event) { e.Launched? || e.RunBegin? || e.RunEnd? || e.Ended? }

  // ---- What allows an event, kind by kind ----

  lemma AllowedPhase(l: Ledger, e: Event)
    requires Allowed(l, e)
    ensures e.InitOk? ==> l.phase == Created && l.callback != InStop
    ensures e == StopOk ==> l.phase == Started
    ensures e == StopNoop ==> l.callback == Idle
    ensures e == StopBegin ==> l.phase == Started
    ensures e == Returned(StartRpc, OK) ==> l.phase == Inited && l.startOk && l.callback == Idle
    ensures e.IntervalSet? ==> l.interval == None
    ensures e.JobsAdded? ==> l.jobs == None
    ensures e.JobsStarting? ==> l.jobsOn == None
  {
  }

  lemma AllowedGoroutine(l: Ledger, e: Event)
    requires Allowed(l, e)
    ensures e.Launched? ==> e.g == |l.gs|
    ensures e.RunBegin? || e.Ended? ==> e.g < |l.gs| && !l.gs[e.g].running && !l.gs[e.g].ended
    ensures e.RunEnd? ==> e.g < |l.gs| && l.gs[e.g].running && !l.gs[e.g].ended
    ensures e.Declared? ==> e.h < |l.surfaces|
  {
  }

  // ---- The ledger only grows ----

  function Rank(p: Phase): nat {
    match p
    case Created => 0
    case Inited => 1
    case Started => 2
    case Stopped => 3
  }

  ghost predicate Grows(a: Ledger, b: Ledger) {
    && Rank(a.phase) <= Rank(b.phase)
    && (a.startOk ==> b.startOk) && (a.stopSeen ==> b.stopSeen) && (a.exited ==> b.exited)
    && (a.jobsOn.Some? ==> b.jobsOn == a.jobsOn)
  }

  /** The ledger before event `j`. */
  function At(t: Trace, j: nat): Ledger
    requires j <= |t|
  {
    LedgerOf(t[..j])
  }

  lemma AtNext(t: Trace, j: nat)
    requires j < |t|
    ensures At(t, j + 1) == Advance(At(t, j), t[j])
  {
    assert t[..j + 1][..j] == t[..j];
  }

  lemma AllowedAt(t: Trace, j: nat)
    requires Ordered(t) && j < |t|
    ensures Allowed(At(t, j), t[j])
  {
    hide Allowed, LedgerOf;
  }

  lemma GrowsStep(l: Ledger, e: Event)
    requires Allowed(l, e)
    ensures Grows(l, Advance(l, e))
  {
    hide Allowed, SurfacesAfter, GoroutinesAfter;
    AllowedPhase(l, e);
  }

  lemma {:induction false} LedgerGrows(t: Trace, i: nat, j: nat)
    requires Ordered(t) && i <= j <= |t|
    ensures Grows(At(t, i), At(t, j))
    decreases j
  {
    hide Allowed, Advance, Ordered, At;
    if i < j {
      LedgerGrows(t, i, j - 1);
      AtNext(t, j - 1);
      AllowedAt(t, j - 1);
      GrowsStep(At(t, j - 1), t[j - 1]);
    }
  }

  lemma OrderedPrefix(t: Trace, j: nat)
    requires Ordered(t) && j <= |t|
    ensures Ordered(t[..j])
  {
    hide Allowed, LedgerOf;
    forall i | 0 <= i < j ensures Allowed(LedgerOf(t[..j][..i]), t[..j][i]) {
      assert t[..j][..i] == t[..i];
    }
  }

  /** An ordered trace is a shorter ordered trace and an allowed event. */
  lemma Unsnoc(t: Trace) returns (past: Trace, e: Event)
    requires Ordered(t) && t != []
    ensures t == past + [e] && Ordered(past) && Allowed(LedgerOf(past), e)
    ensures LedgerOf(t) == Advance(LedgerOf(past), e)
  {
    hide Allowed, Advance, Ordered, LedgerOf;
    var n := |t| - 1;
    AllowedAt(t, n);
    AtNext(t, n);
    OrderedPrefix(t, n);
    past, e := t[..n], t[n];
    assert t[..|t|] == t;
  }

  // ---- The ledger says exactly what is in the trace ----

  /** What the ledger says about goroutine `g` is what the events of `g` add up to. */
  ghost predicate AccountsFor(l: Ledger, t: Trace, g: nat) {
    && (Launched(g) in t <==> g < |l.gs|)
    && (Ended(g) in t <==> g < |l.gs| && l.gs[g].ended)
    && Ends(t, g) == (if g < |l.gs| then l.gs[g].ends else 0)
    && Runs(t, g) == Ends(t, g) + (if g < |l.gs| && l.gs[g].running then 1 else 0)
    && (g < |l.gs| && l.gs[g].ended ==> !l.gs[g].running)
  }

  lemma AccountsStep(l: Ledger, t: Trace, e: Event, g: nat)
    requires Allowed(l, e) && AccountsFor(l, t, g)
    ensures AccountsFor(Advance(l, e), t + [e], g)
  {
    hide Allowed, PhaseAfter, CallbackAfter, SurfacesAfter;
    AllowedGoroutine(l, e);
    assert forall x :: x in t + [e] <==> x in t || x == e;
  }

  lemma {:induction false} GoroutineAccounts(t: Trace, g: nat)
    requires Ordered(t)
    ensures AccountsFor(LedgerOf(t), t, g)
    decreases |t|
  {
    if t != [] {
      hide Allowed, Advance, Ordered, AccountsFor, LedgerOf;
      var past, e := Unsnoc(t);
      GoroutineAccounts(past, g);
      AccountsStep(LedgerOf(past), past, e, g);
    }
  }

  /** The phase says which callbacks have succeeded. */
  predicate PhaseFlags(l: Ledger) {
    && (l.phase == Created ==> l.initOk == None)
    && (l.phase == Inited || l.phase == Started ==> l.initOk.Some?)
    && (l.phase == Started ==> l.startOk)
    && (l.callback == InStop ==> l.phase == Started)
  }

  lemma PhaseFlagsStep(l: Ledger, e: Event)
    requires Allowed(l, e) && PhaseFlags(l)
    ensures PhaseFlags(Advance(l, e))
  {
    hide Allowed, SurfacesAfter, GoroutinesAfter;
    AllowedPhase(l, e);
  }

  lemma NotInitialised(l: Ledger, e: Event)
    requires Allowed(l, e) && PhaseFlags(l) && e.InitOk?
    ensures l.initOk == None
  {
  }

  /** The flags of the ledger are memberships. */
  ghost predicate CallFlags(l: Ledger, t: Trace) {
    && (l.startOk <==> StartOk in t)
    && (forall h: nat :: InitOk(h) in t <==> l.initOk == Some(h))
    && (forall h: nat :: JobsStarting(h) in t <==> l.jobsOn == Some(h))
  }

  ghost predicate InitFlags(l: Ledger, t: Trace) {
    && (forall n: nat :: IntervalSet(n) in t <==> l.interval == Some(n))
    && (forall js :: JobsAdded(js) in t <==> l.jobs == Some(js))
  }

  ghost predicate FlagsFor(l: Ledger, t: Trace) { PhaseFlags(l) && CallFlags(l, t) && InitFlags(l, t) }

  lemma CallFlagsStep(l: Ledger, t: Trace, e: Event)
    requires Allowed(l, e) && PhaseFlags(l) && CallFlags(l, t)
    ensures CallFlags(Advance(l, e), t + [e])
  {
    hide Allowed, PhaseFlags, PhaseAfter, CallbackAfter, SurfacesAfter, GoroutinesAfter;
    AllowedPhase(l, e);
    if e.InitOk? { NotInitialised(l, e); }
    assert forall x :: x in t + [e] <==> x in t || x == e;
  }

  lemma InitFlagsStep(l: Ledger, t: Trace, e: Event)
    requires Allowed(l, e) && InitFlags(l, t)
    ensures InitFlags(Advance(l, e), t + [e])
  {
    hide Allowed, PhaseAfter, CallbackAfter, SurfacesAfter, GoroutinesAfter;
    AllowedPhase(l, e);
    assert forall x :: x in t + [e] <==> x in t || x == e;
  }

  lemma FlagsStep(l: Ledger, t: Trace, e: Event)
    requires Allowed(l, e) && FlagsFor(l, t)
    ensures FlagsFor(Advance(l, e), t + [e])
  {
    hide Allowed, Advance, PhaseFlags, CallFlags, InitFlags;
    PhaseFlagsStep(l, e);
    CallFlagsStep(l, t, e);
    InitFlagsStep(l, t, e);
  }

  lemma {:induction false} Flags(t: Trace)
    requires Ordered(t)
    ensures FlagsFor(LedgerOf(t), t)
    decreases |t|
  {
    if t != [] {
      hide Allowed, Advance, Ordered, FlagsFor, LedgerOf;
      var past, e := Unsnoc(t);
      Flags(past);
      FlagsStep(LedgerOf(past), past, e);
    }
  }

  ghost predicate CountsFor(l: Ledger, t: Trace) {
    Opened(l) == OpenedIn(t) && l.closed == ClosedIn(t) && |l.gs| == LaunchedIn(t)
  }

  lemma AdvanceCounts(l: Ledger, e: Event)
    ensures var l' := Advance(l, e);
      && Opened(l') == Opened(l) + (if e.InitBegin? then 1 else 0)
      && l'.closed == l.closed + (if e.InitFailed? || e.HostClosed? then 1 else 0)
      && |l'.gs| == |l.gs| + (if e.Launched? then 1 else 0)
  {
    hide PhaseAfter, CallbackAfter;
  }

  lemma CountsStep(l: Ledger, t: Trace, e: Event)
    requires CountsFor(l, t)
    ensures CountsFor(Advance(l, e), t + [e])
  {
    hide Advance;
    AdvanceCounts(l, e);
    assert (t + [e])[..|t|] == t;
  }

  lemma {:induction false} CountsAccount(t: Trace)
    requires Ordered(t)
    ensures CountsFor(LedgerOf(t), t)
    decreases |t|
  {
    if t != [] {
      hide Allowed, Advance, Ordered, CountsFor, LedgerOf;
      var past, e := Unsnoc(t);
      CountsAccount(past);
      CountsStep(LedgerOf(past), past, e);
    }
  }

  ghost predicate SurfacesFor(l: Ledger, t: Trace, h: nat) {
    SurfacesOf(t, h) == if h < |l.surfaces| then l.surfaces[h] else []
  }

  lemma SurfacesStep(l: Ledger, t: Trace, e: Event, h: nat)
    requires Allowed(l, e) && SurfacesFor(l, t, h)
    ensures SurfacesFor(Advance(l, e), t + [e], h)
  {
    hide Allowed, PhaseAfter, CallbackAfter, GoroutinesAfter;
    AllowedGoroutine(l, e);
    assert (t + [e])[..|t|] == t;
  }

  lemma {:induction false} SurfacesAccount(t: Trace, h: nat)
    requires Ordered(t)
    ensures SurfacesFor(LedgerOf(t), t, h)
    decreases |t|
  {
    if t != [] {
      hide Allowed, Advance, Ordered, SurfacesFor, LedgerOf;
      var past, e := Unsnoc(t);
      SurfacesAccount(past, h);
      SurfacesStep(LedgerOf(past), past, e, h);
    }
  }

  // ---- Lifecycle order ----

  /** Module.Init, Start and Stop each succeed at most once. */
  lemma SuccessOnce(t: Trace, i: nat, j: nat)
    requires Ordered(t) && i < j < |t|
    ensures !(t[i].InitOk? && t[j].InitOk?)
    ensures !(t[i] == StartOk && t[j] == StartOk)
    ensures !(t[i] == StopOk && t[j] == StopOk)
  {
    hide Ordered, LedgerOf;
    AtNext(t, i);
    LedgerGrows(t, i + 1, j);
    AllowedAt(t, j);
  }

  /** Start is attempted only after a successful Init, Stop only after a successful Start. */
  lemma CallsInOrder(t: Trace, j: nat)
    requires Ordered(t) && j < |t|
    ensures t[j] == StartBegin ==> exists e :: e in t[..j] && e.InitOk?
    ensures t[j] == StopBegin ==> StartOk in t[..j]
  {
    hide Ordered, LedgerOf;
    OrderedPrefix(t, j);
    Flags(t[..j]);
    AllowedAt(t, j);
    if t[j] == StartBegin { assert InitOk(LedgerOf(t[..j]).initOk.value) in t[..j]; }
  }

  /** Once stopped, the module is never initialised, started or stopped again. */
  lemma StoppedAbsorbs(t: Trace, i: nat, j: nat)
    requires Ordered(t) && i < j < |t| && (t[i] == StopOk || t[i] == StopNoop)
    ensures !t[j].InitBegin? && !t[j].InitOk? && t[j] != StartBegin && t[j] != StartOk && t[j] != StopBegin
    ensures !t[j].Launched? && t[j] != StopOk && t[j] != Returned(InitRpc, OK) && t[j] != Returned(StartRpc, OK)
  {
    hide Ordered, LedgerOf;
    AtNext(t, i);
    LedgerGrows(t, i + 1, j);
    AllowedAt(t, j);
  }

  // ---- Job quiescence ----

  /** Runs lie after a successful Start, and never overlap with another run of the same job. */
  lemma RunsAfterStart(t: Trace, j: nat, g: nat)
    requires Ordered(t) && j < |t| && t[j] == RunBegin(g)
    ensures StartOk in t[..j] && Launched(g) in t[..j] && Ended(g) !in t[..j]
    ensures Runs(t[..j], g) == Ends(t[..j], g)
  {
    hide Ordered, LedgerOf;
    OrderedPrefix(t, j);
    Flags(t[..j]);
    GoroutineAccounts(t[..j], g);
    AllowedAt(t, j);
  }

  /** After Module.Stop is called, or a Stop or Shutdown answered, no goroutine starts, runs or ends. */
  lemma QuietAfterStop(t: Trace, i: nat, j: nat)
    requires Ordered(t) && i < j < |t| && StopMark(t[i])
    ensures !JobEvent(t[j])
  {
    hide Ordered, LedgerOf;
    AtNext(t, i);
    LedgerGrows(t, i + 1, j);
    AllowedAt(t, j);
    AllowedAt(t, i);
  }

  /** When Module.Stop is called, or a Stop or Shutdown answered, every goroutine has ended and every run is over. */
  lemma NothingLiveAtStop(t: Trace, j: nat, g: nat)
    requires Ordered(t) && j < |t| && StopMark(t[j])
    ensures Launched(g) in t[..j] ==> Ended(g) in t[..j]
    ensures Runs(t[..j], g) == Ends(t[..j], g)
  {
    hide Ordered, LedgerOf;
    OrderedPrefix(t, j);
    GoroutineAccounts(t[..j], g);
    AllowedAt(t, j);
  }

  /** When Module.Stop is called, every job the module declared has completed a run. */
  lemma EveryJobRanAtStop(t: Trace, j: nat, jobs: seq<Job>, k: nat)
    requires Ordered(t) && j < |t| && t[j] == StopBegin
    requires JobsAdded(jobs) in t[..j] && k < |jobs|
    ensures RunEnd(k) in t[..j]
  {
    hide Ordered, LedgerOf;
    OrderedPrefix(t, j);
    Flags(t[..j]);
    GoroutineAccounts(t[..j], k);
    AllowedAt(t, j);
    assert Ends(t[..j], k) > 0;
  }

  /** Once Start has answered OK, every declared job has a goroutine. */
  lemma StartedLaunched(t: Trace, j: nat, jobs: seq<Job>, k: nat)
    requires Ordered(t) && j <= |t| && Returned(StartRpc, OK) in t[..j]
    requires JobsAdded(jobs) in t[..j] && k < |jobs|
    ensures Launched(k) in t[..j]
  {
    hide Ordered, LedgerOf;
    var i :| 0 <= i < j && t[..j][i] == Returned(StartRpc, OK);
    OrderedPrefix(t, i);
    OrderedPrefix(t, j);
    AllowedAt(t, i);
    Flags(t[..i]);
    Flags(t[..j]);
    GoroutineAccounts(t[..i], k);
    var js := LedgerOf(t[..i]).jobs.value;
    assert JobsAdded(js) in t[..i];
    assert forall e :: e in t[..i] ==> e in t[..j] by { assert t[..i] <= t[..j]; }
  }

  lemma AllowedExit(l: Ledger, g: nat, k: nat)
    requires Allowed(l, Exited(0))
    ensures g < |l.gs| ==> l.gs[g].ended
    ensures l.gs != [] && l.jobs.Some? && k < |l.jobs.value| ==> k < |l.gs| && l.gs[k].ends > 0
  {
  }

  /** At a clean exit nothing is live and, if anything was ever launched, every job has completed a run. */
  lemma EveryJobRanAtExit(t: Trace, j: nat, g: nat, jobs: seq<Job>, k: nat)
    requires Ordered(t) && j < |t| && t[j] == Exited(0)
    ensures (Launched(g) in t[..j] ==> Ended(g) in t[..j]) && Runs(t[..j], g) == Ends(t[..j], g)
    ensures Launched(g) in t[..j] && JobsAdded(jobs) in t[..j] && k < |jobs| ==> RunEnd(k) in t[..j]
  {
    hide Ordered, LedgerOf, Allowed;
    OrderedPrefix(t, j);
    Flags(t[..j]);
    GoroutineAccounts(t[..j], g);
    GoroutineAccounts(t[..j], k);
    AllowedAt(t, j);
    AllowedExit(LedgerOf(t[..j]), g, k);
    if Launched(g) in t[..j] && JobsAdded(jobs) in t[..j] && k < |jobs| {
      assert LedgerOf(t[..j]).jobs == Some(jobs);
      assert Ends(t[..j], k) > 0;
    }
  }

  /**
   * When Start answers OK it has launched exactly one goroutine for each declared job and one more for
   * the watchdog if core asked for it, in this order.
   */
  lemma EveryoneLaunched(t: Trace, j: nat, jobs: seq<Job>, seconds: nat)
    requires Ordered(t) && j < |t| && t[j] == Returned(StartRpc, OK)
    requires JobsAdded(jobs) in t[..j] && IntervalSet(seconds) in t[..j]
    ensures LaunchedIn(t[..j]) == |jobs| + (if seconds > 0 then 1 else 0)
    ensures forall g: nat :: Launched(g) in t[..j] <==> g < LaunchedIn(t[..j])
  {
    hide Ordered, LedgerOf;
    OrderedPrefix(t, j);
    Flags(t[..j]);
    CountsAccount(t[..j]);
    AllowedAt(t, j);
    forall g: nat ensures Launched(g) in t[..j] <==> g < LaunchedIn(t[..j]) { GoroutineAccounts(t[..j], g); }
  }

  // ---- Connections and surfaces ----

  /** At most one connection is open at a time, and a clean exit leaves none. */
  lemma ConnectionsBalance(t: Trace, j: nat)
    requires Ordered(t) && j < |t|
    ensures t[j].InitBegin? ==> OpenedIn(t[..j]) == ClosedIn(t[..j])
    ensures t[j] == Exited(0) ==> OpenedIn(t[..j]) == ClosedIn(t[..j])
    ensures t[j].HostClosed? ==> OpenedIn(t[..j]) == ClosedIn(t[..j]) + 1
  {
    hide Ordered, LedgerOf;
    OrderedPrefix(t, j);
    CountsAccount(t[..j]);
    AllowedAt(t, j);
  }

  /** A surface is among those of connection `h` exactly if some accepted declaration on it had it. */
  lemma {:induction false} SurfaceDeclared(t: Trace, h: nat, x: Surface)
    ensures x in SurfacesOf(t, h) <==> exists i :: 0 <= i < |t| && t[i].Declared? && t[i].h == h && x in t[i].surfaces
    decreases |t|
  {
    if t != [] {
      var n := |t| - 1;
      SurfaceDeclared(t[..n], h, x);
      if x in SurfacesOf(t[..n], h) {
        var i :| 0 <= i < n && t[..n][i].Declared? && t[..n][i].h == h && x in t[..n][i].surfaces;
        assert t[i].Declared? && t[i].h == h && x in t[i].surfaces;
      }
      if i :| 0 <= i < |t| && t[i].Declared? && t[i].h == h && x in t[i].surfaces {
        if i < n { assert t[..n][i] == t[i]; }
      }
    }
  }

  /** Init answers with exactly the surfaces declared on the connection of the successful attempt. */
  lemma SurfacesAnswered(t: Trace, j: nat)
    requires Ordered(t) && j < |t| && t[j].InitAnswered?
    ensures t[j].surfaces == SurfacesOf(t[..j], t[j].h)
    ensures InitOk(t[j].h) in t[..j]
  {
    hide Ordered, LedgerOf;
    OrderedPrefix(t, j);
    SurfacesAccount(t[..j], t[j].h);
    Flags(t[..j]);
    AllowedAt(t, j);
  }

  /** Declare is refused exactly on a connection whose jobs were started, not as soon as Init has returned. */
  lemma DeclareRefusedAfterStart(t: Trace, j: nat)
    requires Ordered(t) && j < |t|
    ensures t[j].Declared? ==> JobsStarting(t[j].h) !in t[..j]
    ensures t[j].DeclareRefused? ==> JobsStarting(t[j].h) in t[..j]
  {
    hide Ordered, LedgerOf;
    OrderedPrefix(t, j);
    Flags(t[..j]);
    AllowedAt(t, j);
  }
}
