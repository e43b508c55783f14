/**
 * The policy notify protocol: HostData.SetPolicy, Policy and addPolicyWatcher, the
 * policyServer.Watch loop and the client's forwarding goroutine, interleaved arbitrarily.
 *
 * SetPolicy installs under the lock and delivers its wake-ups outside it, one watcher at a
 * time, from the snapshot it took; a watcher reads, sends and parks in separate steps.
 */
module PolicyWatch {
  import opened Common

  datatype Doc = Doc(revision: uint64, data: Bytes)

  /** Where one policyServer.Watch call is. */
  datatype WatchPc = Reading | Sending(doc: Doc, date: int) | Parked | Closed

  /** Where the goroutine behind the client's channel is. */
  datatype ClientPc = Receiving | Holding(doc: Doc) | HungUp

  /**
   * One watcher: its handler, its one-slot channel (`token`), every document its stream
   * accepted (`log`), what of it is still on the wire, and what its client's channel yielded.
   * `joined` is how many SetPolicy calls had taken effect when it registered, `dates` how many
   * when each document of the log was read.
   */
  datatype Watcher = Watcher(
    pc: WatchPc, sent: uint64, token: bool, joined: int,
    log: seq<Doc>, dates: seq<int>,
    wire: seq<Doc>, client: ClientPc, out: seq<Doc>)

  /** A SetPolicy call past its critical section: it will post to watchers next..count. */
  datatype Setter = Setter(next: nat, count: nat)

  /** `installed` is every document in order, starting with the empty one nobody installed. */
  datatype State = State(
    revision: uint64, data: Bytes, installed: seq<Bytes>, watchers: seq<Watcher>, setters: seq<Setter>)

  datatype Action =
    | Install(data: Bytes) | Notify(k: nat)
    | AddWatcher | Read(w: nat) | Send(w: nat, ok: bool) | Wake(w: nat) | Cancel(w: nat)
    | Recv(w: nat, ok: bool) | Forward(w: nat, ok: bool)

  const INITIAL := State(0, [], [[]], [], [])

  function Calls(s: State): int { |s.installed| - 1 }

  function Current(s: State): Doc { Doc(s.revision, s.data) }

  predicate WatcherAt(s: State, w: nat, pc: WatchPc) { w < |s.watchers| && s.watchers[w].pc == pc }

  predicate Enabled(s: State, a: Action) {
    match a
    case Install(_) => true
    case Notify(k) => k < |s.setters| && s.setters[k].next < s.setters[k].count
    case AddWatcher => true
    case Read(w) => WatcherAt(s, w, Reading)
    case Send(w, _) => w < |s.watchers| && s.watchers[w].pc.Sending?
    case Wake(w) => WatcherAt(s, w, Parked) && s.watchers[w].token
    case Cancel(w) => WatcherAt(s, w, Parked)
    case Recv(w, ok) => w < |s.watchers| && s.watchers[w].client == Receiving && (ok ==> s.watchers[w].wire != [])
    case Forward(w, _) => w < |s.watchers| && s.watchers[w].client.Holding?
  }

  /** The stream has accepted `doc`, read after `date` SetPolicy calls. */
  function Sent(x: Watcher, doc: Doc, date: int): Watcher {
    x.(pc := Parked, sent := (doc.revision + 1) % TWO_64,
       log := x.log + [doc], dates := x.dates + [date], wire := x.wire + [doc])
  }

  /** What one watcher becomes; `now` is the current document and `date` the number of SetPolicy calls so far. */
  function MoveWatcher(x: Watcher, a: Action, now: Doc, date: int): Watcher {
    match a
    case Read(_) => if now.revision >= x.sent then x.(pc := Sending(now, date)) else x.(pc := Parked)
    case Send(_, ok) =>
      if !x.pc.Sending? || !ok then x.(pc := Closed) else Sent(x, x.pc.doc, x.pc.date)
    case Wake(_) => x.(pc := Reading, token := false)
    case Cancel(_) => x.(pc := Closed)
    case Recv(_, ok) =>
      if !ok || x.wire == [] then x.(client := HungUp) else x.(client := Holding(x.wire[0]), wire := x.wire[1..])
    case Forward(_, ok) =>
      if !ok || !x.client.Holding? then x.(client := HungUp)
      else x.(client := Receiving, out := x.out + [x.client.doc])
    case _ => x
  }

  predicate WatcherStep(a: Action) { a.Read? || a.Send? || a.Wake? || a.Cancel? || a.Recv? || a.Forward? }

  function Next(s: State, a: Action): State
    requires Enabled(s, a)
  {
    match a
    case Install(data) =>
      s.(revision := (s.revision + 1) % TWO_64, data := data, installed := s.installed + [data],
         setters := s.setters + [Setter(0, |s.watchers|)])
    case Notify(k) =>
      var w := s.setters[k].next;
      s.(watchers := if w < |s.watchers| then s.watchers[w := s.watchers[w].(token := true)] else s.watchers,
         setters := s.setters[k := s.setters[k].(next := w + 1)])
    case AddWatcher =>
      s.(watchers := s.watchers + [Registered(Calls(s))])
    case _ => s.(watchers := s.watchers[a.w := MoveWatcher(s.watchers[a.w], a, Current(s), Calls(s))])
  }

  predicate Legal(s: State, run: seq<Action>)
    decreases |run|
  {
    run == [] || (Enabled(s, run[0]) && Legal(Next(s, run[0]), run[1..]))
  }

  function After(s: State, run: seq<Action>): State
    requires Legal(s, run)
    decreases |run|
  {
    if run == [] then s else After(Next(s, run[0]), run[1..])
  }

  lemma {:induction false} RunThen(s: State, first: seq<Action>, second: seq<Action>)
    requires Legal(s, first) && Legal(After(s, first), second)
    ensures Legal(s, first + second) && After(s, first + second) == After(After(s, first), second)
    decreases |first|
  {
    hide Enabled, Next;
    if first == [] {
      assert first + second == second;
    } else {
      RunThen(Next(s, first[0]), first[1..], second);
      assert (first + second)[1..] == first[1..] + second;
    }
  }

  /** Some run leads from the start to `s`. */
  ghost predicate Reachable(s: State) { exists run :: Legal(INITIAL, run) && After(INITIAL, run) == s }

  lemma OneStep(s: State, a: Action)
    requires Enabled(s, a)
    ensures Legal(s, [a]) && After(s, [a]) == Next(s, a)
  {
    hide Enabled, Next;
    var rest := [a][1..];
    assert rest == [] && Legal(Next(s, a), rest) && After(Next(s, a), rest) == Next(s, a);
  }

  lemma ReachableNext(s: State, a: Action)
    requires Reachable(s) && Enabled(s, a)
    ensures Reachable(Next(s, a))
  {
    hide Enabled, Next, Legal, After;
    var run :| Legal(INITIAL, run) && After(INITIAL, run) == s;
    OneStep(s, a);
    RunThen(INITIAL, run, [a]);
  }

  // ---- The invariant ----

  /** `doc` is the document installed by SetPolicy call number `date`, under the revision that call gave it. */
  ghost predicate Dated(doc: Doc, date: int, installed: seq<Bytes>) {
    0 <= date < |installed| && doc == Doc(date % TWO_64, installed[date])
  }

  ghost predicate Increasing(log: seq<Doc>) {
    forall i, j :: 0 <= i < j < |log| ==> log[i].revision < log[j].revision
  }

  /** A document follows only one with a lower revision, or the last revision there is. */
  ghost predicate Follows(log: seq<Doc>) {
    forall i, j :: 0 <= i < j == i + 1 < |log| ==> log[i].revision < log[j].revision || log[i].revision == TWO_64 - 1
  }

  /** Every document was read no earlier than the one before it, after the watcher had registered. */
  ghost predicate Chronicle(x: Watcher, installed: seq<Bytes>) {
    && |x.dates| == |x.log|
    && (forall i :: 0 <= i < |x.log| ==> Dated(x.log[i], x.dates[i], installed) && x.joined <= x.dates[i])
    && (forall i, j :: 0 <= i < j < |x.log| ==> x.dates[i] <= x.dates[j])
  }

  /** The documents the client's goroutine holds: what it took off the wire and has not passed on. */
  function Held(x: Watcher): seq<Doc> { if x.client.Holding? then [x.client.doc] else [] }

  ghost predicate StreamInv(x: Watcher, installed: seq<Bytes>) {
    && x.sent as int == (if x.log == [] then 0 else (x.log[|x.log| - 1].revision + 1) % TWO_64)
    && Follows(x.log) && Chronicle(x, installed)
    && (x.pc.Sending? ==>
          && Dated(x.pc.doc, x.pc.date, installed) && x.pc.doc.revision >= x.sent && x.joined <= x.pc.date
          && forall i :: 0 <= i < |x.dates| ==> x.dates[i] <= x.pc.date)
    && (x.pc == Parked ==> x.log != [])
    && 0 <= x.joined < |installed|
  }

  ghost predicate ClientInv(x: Watcher) {
    && x.out <= x.log
    && (x.client != HungUp ==> x.out + Held(x) + x.wire == x.log)
  }

  /** The last document the watcher sent is `now`. */
  predicate UpToDate(x: Watcher, now: Doc) { x.log != [] && x.log[|x.log| - 1] == now }

  /** It would park, or has parked, on another document although the guard of its loop lets `now` through. */
  predicate Stale(x: Watcher, now: Doc) {
    || (x.pc == Parked && x.sent <= now.revision && !UpToDate(x, now))
    || (x.pc.Sending? && x.pc.doc != now)
  }

  /** An unfinished SetPolicy still has watcher `w` in its snapshot. */
  ghost predicate Pending(setters: seq<Setter>, w: nat) {
    exists k :: 0 <= k < |setters| && setters[k].next <= w < setters[k].count
  }

  /** No lost wake-up: whoever would park stale has a token or is about to be given one. */
  ghost predicate Awake(s: State, w: nat)
    requires w < |s.watchers|
  {
    Stale(s.watchers[w], Current(s)) ==> s.watchers[w].token || Pending(s.setters, w)
  }

  ghost predicate HostInv(s: State) {
    && |s.installed| > 0 && s.revision == Calls(s) % TWO_64 && s.data == s.installed[Calls(s)]
    && forall k :: 0 <= k < |s.setters| ==> s.setters[k].next <= s.setters[k].count <= |s.watchers|
  }

  ghost predicate WatcherInv(s: State, w: nat)
    requires w < |s.watchers|
  {
    StreamInv(s.watchers[w], s.installed) && ClientInv(s.watchers[w]) && Awake(s, w)
  }

  ghost predicate Inv(s: State) {
    HostInv(s) && forall w: nat :: w < |s.watchers| ==> WatcherInv(s, w)
  }

  // ---- Each step keeps it ----

  lemma NextResidue(n: nat)
    ensures (n % TWO_64 + 1) % TWO_64 == (n + 1) % TWO_64
  {
  }

  lemma StreamUnmoved(x: Watcher, installed: seq<Bytes>, data: Bytes)
    requires StreamInv(x, installed)
    ensures StreamInv(x, installed + [data])
  {
  }

  lemma KeepsInstall(s: State, data: Bytes)
    requires Inv(s)
    ensures Inv(Next(s, Install(data)))
  {
    hide StreamInv, ClientInv, Stale;
    var s' := Next(s, Install(data));
    NextResidue(Calls(s));
    assert s'.setters[|s.setters|] == Setter(0, |s.watchers|);
    forall w: nat | w < |s'.watchers| ensures WatcherInv(s', w) {
      assert WatcherInv(s, w);
      StreamUnmoved(s.watchers[w], s.installed, data);
    }
  }

  lemma TokenOnly(x: Watcher, installed: seq<Bytes>, now: Doc)
    requires StreamInv(x, installed) && ClientInv(x)
    ensures var x' := x.(token := true);
      StreamInv(x', installed) && ClientInv(x') && (Stale(x', now) <==> Stale(x, now))
  {
  }

  lemma KeepsNotify(s: State, k: nat)
    requires Inv(s) && Enabled(s, Notify(k))
    ensures Inv(Next(s, Notify(k)))
  {
    hide StreamInv, ClientInv, Stale;
    var s' := Next(s, Notify(k));
    forall w: nat | w < |s'.watchers| ensures WatcherInv(s', w) {
      assert WatcherInv(s, w);
      TokenOnly(s.watchers[w], s.installed, Current(s));
      if Pending(s.setters, w) && w != s.setters[k].next {
        var i :| 0 <= i < |s.setters| && s.setters[i].next <= w < s.setters[i].count;
        assert s'.setters[i].next <= w < s'.setters[i].count;
      }
    }
  }

  lemma KeepsAddWatcher(s: State)
    requires Inv(s)
    ensures Inv(Next(s, AddWatcher))
  {
    var s' := Next(s, AddWatcher);
    forall w: nat | w < |s'.watchers| ensures WatcherInv(s', w) {
      if w < |s.watchers| {
        hide StreamInv, ClientInv, Stale;
        assert WatcherInv(s, w);
      }
    }
  }

  lemma ReadKeepsStream(x: Watcher, installed: seq<Bytes>, now: Doc)
    requires StreamInv(x, installed) && Dated(now, |installed| - 1, installed)
    requires x.sent <= now.revision
    ensures StreamInv(x.(pc := Sending(now, |installed| - 1)), installed)
  {
    assert forall i :: 0 <= i < |x.dates| ==> Dated(x.log[i], x.dates[i], installed);
  }

  lemma SendKeepsStream(x: Watcher, installed: seq<Bytes>)
    requires StreamInv(x, installed) && x.pc.Sending?
    ensures StreamInv(Sent(x, x.pc.doc, x.pc.date), installed)
  {
    hide Dated;
  }

  lemma PcKeepsStream(x: Watcher, installed: seq<Bytes>, pc: WatchPc, token: bool)
    requires StreamInv(x, installed) && !pc.Sending? && (pc == Parked ==> x.log != [])
    ensures StreamInv(x.(pc := pc, token := token), installed)
  {
    hide Dated;
  }

  lemma WireKeepsStream(x: Watcher, installed: seq<Bytes>, wire: seq<Doc>, client: ClientPc, out: seq<Doc>)
    requires StreamInv(x, installed)
    ensures StreamInv(x.(wire := wire, client := client, out := out), installed)
  {
    hide Dated;
  }

  /** Below the guard there is a document in the log: before the first, every revision passes it. */
  lemma HasSent(x: Watcher, installed: seq<Bytes>)
    requires StreamInv(x, installed) && x.sent > 0
    ensures x.log != []
  {
  }

  lemma KeepsStream(x: Watcher, a: Action, installed: seq<Bytes>, now: Doc)
    requires StreamInv(x, installed) && WatcherStep(a) && Dated(now, |installed| - 1, installed)
    requires a.Send? ==> x.pc.Sending?
    ensures StreamInv(MoveWatcher(x, a, now, |installed| - 1), installed)
  {
    hide StreamInv, Dated, Sent;
    var x' := MoveWatcher(x, a, now, |installed| - 1);
    if a.Send? && a.ok {
      SendKeepsStream(x, installed);
    } else if a.Read? && now.revision >= x.sent {
      ReadKeepsStream(x, installed, now);
    } else if a.Recv? || a.Forward? {
      WireKeepsStream(x, installed, x'.wire, x'.client, x'.out);
    } else {
      if a.Read? { HasSent(x, installed); }
      PcKeepsStream(x, installed, x'.pc, x'.token);
    }
  }

  lemma KeepsClient(x: Watcher, a: Action, now: Doc, date: int)
    requires ClientInv(x) && WatcherStep(a)
    requires (a.Send? ==> x.pc.Sending?) && (a.Recv? && a.ok ==> x.wire != []) && (a.Forward? ==> x.client.Holding?)
    requires a.Recv? ==> x.client == Receiving
    ensures ClientInv(MoveWatcher(x, a, now, date))
  {
    var x' := MoveWatcher(x, a, now, date);
    if a.Send? && a.ok {
      assert x.out + Held(x) + x.wire + [x.pc.doc] == x'.out + Held(x') + x'.wire;
    } else if a.Recv? && a.ok {
      assert x'.out + Held(x') + x'.wire == x.out + x.wire;
      assert x.out + Held(x) + x.wire == x.out + x.wire;
    } else if a.Forward? && a.ok {
      assert x'.out + Held(x') + x'.wire == x.out + Held(x) + x.wire;
    }
  }

  /** A move leaves a watcher no staler than it was, unless it takes its token to read again. */
  lemma KeepsAwake(x: Watcher, a: Action, now: Doc, date: int)
    requires WatcherStep(a) && (a.Send? ==> x.pc.Sending?)
    ensures var x' := MoveWatcher(x, a, now, date);
      && (Stale(x', now) ==> Stale(x, now))
      && (x'.token == x.token || !Stale(x', now))
  {
  }

  lemma KeepsMove(s: State, a: Action)
    requires Inv(s) && Enabled(s, a) && WatcherStep(a)
    ensures Inv(Next(s, a))
  {
    hide MoveWatcher, StreamInv, ClientInv, Stale;
    var s' := Next(s, a);
    assert WatcherInv(s, a.w);
    KeepsStream(s.watchers[a.w], a, s.installed, Current(s));
    KeepsClient(s.watchers[a.w], a, Current(s), Calls(s));
    KeepsAwake(s.watchers[a.w], a, Current(s), Calls(s));
    forall w: nat | w < |s'.watchers| ensures WatcherInv(s', w) {
      assert WatcherInv(s, w);
    }
  }

  lemma StepKeeps(s: State, a: Action)
    requires Inv(s) && Enabled(s, a)
    ensures Inv(Next(s, a))
  {
    hide Inv;
    match a
    case Install(data) => KeepsInstall(s, data);
    case Notify(k) => KeepsNotify(s, k);
    case AddWatcher => KeepsAddWatcher(s);
    case _ => KeepsMove(s, a);
  }

  lemma {:induction false} RunKeeps(s: State, run: seq<Action>)
    requires Inv(s) && Legal(s, run)
    ensures Inv(After(s, run))
    decreases |run|
  {
    if run != [] {
      StepKeeps(s, run[0]);
      RunKeeps(Next(s, run[0]), run[1..]);
    }
  }

  lemma ReachableInv(s: State)
    requires Reachable(s)
    ensures Inv(s)
  {
    hide Enabled, Next;
    var run :| Legal(INITIAL, run) && After(INITIAL, run) == s;
    RunKeeps(INITIAL, run);
  }

  // ---- Theorems over every interleaving ----

  predicate AllReturned(setters: seq<Setter>) {
    forall k :: 0 <= k < |setters| ==> setters[k].next == setters[k].count
  }

  /** Every SetPolicy call has returned and watcher `w` sits in its select with an empty channel. */
  predicate AtRest(s: State, w: nat) { WatcherAt(s, w, Parked) && !s.watchers[w].token && AllReturned(s.setters) }

  /**
   * No lost update, for any number of SetPolicy calls: once all have returned, a watcher parked on an
   * empty channel has sent the current document last, unless the guard of its loop holds it back.
   */
  lemma NoLostUpdate(s: State, w: nat)
    requires Reachable(s) && AtRest(s, w)
    ensures s.watchers[w].log != []
    ensures UpToDate(s.watchers[w], Current(s)) || s.revision < s.watchers[w].sent
  {
    ReachableInv(s);
    assert WatcherInv(s, w);
  }

  /** Watcher `w` is at rest and has missed the current document. */
  predicate Missed(s: State, w: nat) { AtRest(s, w) && !UpToDate(s.watchers[w], Current(s)) }

  /** The numbers of SetPolicy calls after which some watcher can have missed the last one. */
  predicate Wrapped(n: int) { n >= TWO_64 && n % TWO_64 != TWO_64 - 1 }

  /** The guard holds the current document back only after the revision has wrapped, and not at its last value. */
  lemma HeldBack(s: State, w: nat)
    requires Reachable(s) && w < |s.watchers| && s.watchers[w].log != [] && s.revision < s.watchers[w].sent
    ensures UpToDate(s.watchers[w], Current(s)) || Wrapped(Calls(s))
  {
    ReachableInv(s);
    assert WatcherInv(s, w);
    var x := s.watchers[w];
    var i := |x.log| - 1;
    assert Dated(x.log[i], x.dates[i], s.installed);
    LastResidue(x.dates[i], Calls(s));
  }

  /** Where a residue is below the successor of an earlier one, the two are equal or 2^64 has been passed. */
  lemma LastResidue(d: nat, n: nat)
    requires d <= n && n % TWO_64 < (d % TWO_64 + 1) % TWO_64
    ensures d == n || (n >= TWO_64 && n % TWO_64 != TWO_64 - 1)
  {
  }

  /** After exactly which numbers of SetPolicy calls some interleaving loses the last one. */
  lemma LossExactly(n: nat)
    ensures (exists s, w: nat :: Reachable(s) && Calls(s) == n && Missed(s, w)) <==> Wrapped(n)
  {
    if s, w: nat :| Reachable(s) && Calls(s) == n && Missed(s, w) {
      NoLostUpdate(s, w);
      HeldBack(s, w);
    }
    if Wrapped(n) { var s := LosingRun(n - TWO_64); }
  }

  /**
   * Stream soundness, for any number of SetPolicy calls: every document sent is one that was installed,
   * under its call's revision, since the watcher registered; the stream never goes back to an earlier
   * call; its revisions increase except directly after 2^64 - 1; and the client's channel yields a
   * prefix of it.
   */
  lemma StreamSound(s: State, w: nat)
    requires Reachable(s) && w < |s.watchers|
    ensures var x := s.watchers[w];
      && Chronicle(x, s.installed) && Follows(x.log)
      && (x.pc == Parked ==> x.log != [])
      && x.out <= x.log
      && (x.client != HungUp ==> x.log == x.out + Held(x) + x.wire)
  {
    ReachableInv(s);
    assert WatcherInv(s, w);
  }

  lemma {:induction false} FollowsIncreases(log: seq<Doc>, i: nat, j: nat)
    requires Follows(log) && i < j < |log|
    requires forall k :: 0 <= k < |log| ==> log[k].revision != TWO_64 - 1
    ensures log[i].revision < log[j].revision
    decreases j
  {
    assert log[j - 1].revision < log[j].revision;
    if i < j - 1 { FollowsIncreases(log, i, j - 1); }
  }

  /** Streams are strictly increasing exactly up to 2^64 - 2 calls: the next revision can be sent twice. */
  lemma IncreasesExactly(n: nat)
    ensures (forall s, w: nat :: Reachable(s) && Calls(s) == n && w < |s.watchers| ==> Increasing(s.watchers[w].log))
            <==> n < TWO_64 - 1
  {
    if n < TWO_64 - 1 {
      forall s, w: nat | Reachable(s) && Calls(s) == n && w < |s.watchers| ensures Increasing(s.watchers[w].log) {
        StreamSound(s, w);
        var x := s.watchers[w];
        forall i, j | 0 <= i < j < |x.log| ensures x.log[i].revision < x.log[j].revision {
          FollowsIncreases(x.log, i, j);
        }
      }
    } else {
      var s := RepeatingRun(n - (TWO_64 - 1));
      var log := s.watchers[0].log;
      assert log[0].revision == log[1].revision;
      assert !(forall s, w: nat :: Reachable(s) && Calls(s) == n && w < |s.watchers| ==> Increasing(s.watchers[w].log));
    }
  }

  /** Every document carries the data of the call that its revision numbers. */
  ghost predicate Genuine(log: seq<Doc>, installed: seq<Bytes>) {
    forall i :: 0 <= i < |log| ==> log[i].revision < |installed| && log[i].data == installed[log[i].revision]
  }

  /** A revision identifies the SetPolicy call exactly up to 2^64 - 1 calls. */
  lemma GenuineExactly(n: nat)
    ensures (forall s, w: nat :: Reachable(s) && Calls(s) == n && w < |s.watchers|
               ==> Genuine(s.watchers[w].log, s.installed))
            <==> n < TWO_64
  {
    if n < TWO_64 {
      forall s, w: nat | Reachable(s) && Calls(s) == n && w < |s.watchers|
        ensures Genuine(s.watchers[w].log, s.installed)
      {
        StreamSound(s, w);
      }
    } else {
      var s := ReusingRun(n - TWO_64);
      var log := s.watchers[0].log;
      assert log[0].data != s.installed[log[0].revision];
      assert !Genuine(log, s.installed);
    }
  }

  // ---- What each step does to one watcher ----

  /**
   * A document joins the log, and the wire, only when its Send succeeds; it is then the one last read.
   * Only a failing Send or the stream's end closes the handler. The client's channel yields a document
   * only when the goroutine behind it forwards it; a failing receive or an abandoned channel ends that.
   */
  lemma WatcherStepExactly(s: State, a: Action, w: nat)
    requires Enabled(s, a) && w < |s.watchers|
    ensures w < |Next(s, a).watchers|
    ensures var x, x' := s.watchers[w], Next(s, a).watchers[w];
      && (a == Read(w) && s.revision >= x.sent ==> x'.pc == Sending(Current(s), Calls(s)))
      && x'.log == (if a == Send(w, true) then x.log + [x.pc.doc] else x.log)
      && (x'.pc == Closed <==> x.pc == Closed || a == Send(w, false) || a == Cancel(w))
      && x'.out == (if a == Forward(w, true) then x.out + [x.client.doc] else x.out)
      && (x'.client == HungUp <==> x.client == HungUp || a == Recv(w, false) || a == Forward(w, false))
  {
    if WatcherStep(a) && a.w == w { MoveExactly(s.watchers[w], a, Current(s), Calls(s)); }
  }

  lemma MoveExactly(x: Watcher, a: Action, now: Doc, date: int)
    requires WatcherStep(a) && (a.Send? ==> x.pc.Sending?) && (a.Recv? && a.ok ==> x.wire != [])
    requires (a.Forward? ==> x.client.Holding?) && (a.Read? ==> x.pc == Reading)
    requires a.Cancel? || a.Wake? ==> x.pc == Parked
    requires a.Recv? ==> x.client == Receiving
    ensures var x' := MoveWatcher(x, a, now, date);
      && (a.Read? && now.revision >= x.sent ==> x'.pc == Sending(now, date))
      && x'.log == (if a.Send? && a.ok then x.log + [x.pc.doc] else x.log)
      && (x'.pc == Closed <==> x.pc == Closed || (a.Send? && !a.ok) || a.Cancel?)
      && x'.out == (if a.Forward? && a.ok then x.out + [x.client.doc] else x.out)
      && (x'.client == HungUp <==> x.client == HungUp || ((a.Recv? || a.Forward?) && !a.ok))
  {
  }

  function Count(run: seq<Action>, a: Action): nat { multiset(run)[a] }

  /** What a run did to one watcher: how often it sent and forwarded, and what ended it and its client. */
  ghost predicate Tells(run: seq<Action>, w: nat, x: Watcher, x': Watcher) {
    && |x'.log| == |x.log| + Count(run, Send(w, true))
    && |x'.out| == |x.out| + Count(run, Forward(w, true))
    && (x'.pc == Closed <==> x.pc == Closed || Send(w, false) in run || Cancel(w) in run)
    && (x'.client == HungUp <==> x.client == HungUp || Recv(w, false) in run || Forward(w, false) in run)
  }

  lemma {:induction false} WatcherRun(s: State, run: seq<Action>, w: nat)
    requires Legal(s, run) && w < |s.watchers|
    ensures w < |After(s, run).watchers| && Tells(run, w, s.watchers[w], After(s, run).watchers[w])
    decreases |run|
  {
    hide Enabled, Next;
    if run != [] {
      assert run == [run[0]] + run[1..];
      WatcherStepExactly(s, run[0], w);
      WatcherRun(Next(s, run[0]), run[1..], w);
    }
  }

  /** A watcher as it registers. */
  function Registered(joined: int): Watcher { Watcher(Reading, 0, false, joined, [], [], [], Receiving, []) }

  lemma {:induction false} RegisteredAt(s: State, run: seq<Action>, w: nat)
    requires Legal(s, run) && |s.watchers| <= w < |After(s, run).watchers|
    ensures Tells(run, w, Registered(0), After(s, run).watchers[w])
    decreases |run|
  {
    var a := run[0];
    assert run == [a] + run[1..];
    if a.AddWatcher? && |s.watchers| == w {
      assert Next(s, a).watchers[w] == Registered(Calls(s));
      WatcherRun(Next(s, a), run[1..], w);
    } else {
      RegisteredAt(Next(s, a), run[1..], w);
    }
  }

  /**
   * Over every run: a watcher has sent as many documents as Sends succeeded and its handler has ended exactly
   * if one failed or its stream was done; its client's channel has yielded as many as were forwarded, and is
   * closed exactly if a receive failed or a forward was abandoned.
   */
  lemma WatchersExactly(run: seq<Action>, w: nat)
    requires Legal(INITIAL, run) && w < |After(INITIAL, run).watchers|
    ensures var x := After(INITIAL, run).watchers[w];
      && |x.log| == Count(run, Send(w, true)) && |x.out| == Count(run, Forward(w, true))
      && (x.pc == Closed <==> Send(w, false) in run || Cancel(w) in run)
      && (x.client == HungUp <==> Recv(w, false) in run || Forward(w, false) in run)
  {
    RegisteredAt(INITIAL, run, w);
  }

  // ---- Settling ----

  function WatcherWeight(x: Watcher): nat {
    (if x.token then 6 else 0)
    + (match x.pc case Reading => 5 case Sending(_, _) => 4 case Parked => 1 case Closed => 0)
    + 2 * |x.wire|
    + (match x.client case Holding(_) => 2 case Receiving => 1 case HungUp => 0)
  }

  function WatchersWeight(xs: seq<Watcher>): nat {
    if xs == [] then 0 else WatchersWeight(xs[..|xs| - 1]) + WatcherWeight(xs[|xs| - 1])
  }

  function SettersWeight(ks: seq<Setter>): nat {
    if ks == [] then 0
    else
      var k := ks[|ks| - 1];
      SettersWeight(ks[..|ks| - 1]) + (if k.next < k.count then 7 * (k.count - k.next) else 0)
  }

  /** How many steps can follow before something outside calls SetPolicy or Watch again. */
  function Measure(s: State): nat { WatchersWeight(s.watchers) + SettersWeight(s.setters) }

  lemma {:induction false} WatchersUpdate(xs: seq<Watcher>, w: nat, x: Watcher)
    requires w < |xs|
    ensures WatchersWeight(xs[w := x]) + WatcherWeight(xs[w]) == WatchersWeight(xs) + WatcherWeight(x)
  {
    hide WatcherWeight;
    var n := |xs| - 1;
    if w == n {
      assert xs[w := x][..n] == xs[..n];
    } else {
      WatchersUpdate(xs[..n], w, x);
      assert xs[w := x][..n] == xs[..n][w := x];
    }
  }

  lemma {:induction false} SettersUpdate(ks: seq<Setter>, k: nat)
    requires k < |ks| && ks[k].next < ks[k].count
    ensures SettersWeight(ks[k := ks[k].(next := ks[k].next + 1)]) + 7 == SettersWeight(ks)
  {
    var n := |ks| - 1;
    var x := ks[k].(next := ks[k].next + 1);
    if k == n {
      assert ks[k := x][..n] == ks[..n];
    } else {
      SettersUpdate(ks[..n], k);
      assert ks[k := x][..n] == ks[..n][k := x];
    }
  }

  predicate FromOutside(a: Action) { a.Install? || a.AddWatcher? }

  lemma StepSettles(s: State, a: Action)
    requires Enabled(s, a) && !FromOutside(a)
    ensures Measure(Next(s, a)) < Measure(s)
  {
    hide WatchersWeight, SettersWeight;
    if a.Notify? {
      var w := s.setters[a.k].next;
      SettersUpdate(s.setters, a.k);
      if w < |s.watchers| { WatchersUpdate(s.watchers, w, s.watchers[w].(token := true)); }
    } else {
      WatchersUpdate(s.watchers, a.w, MoveWatcher(s.watchers[a.w], a, Current(s), Calls(s)));
    }
  }

  /** With no further SetPolicy or Watch call, every run is over after at most `Measure(s)` steps. */
  lemma {:induction false} RunsSettle(s: State, run: seq<Action>)
    requires Legal(s, run) && forall a :: a in run ==> !FromOutside(a)
    ensures |run| <= Measure(s)
    decreases |run|
  {
    if run != [] {
      assert run[0] in run && forall a :: a in run[1..] ==> a in run;
      StepSettles(s, run[0]);
      RunsSettle(Next(s, run[0]), run[1..]);
    }
  }

  /** Nobody but a canceller or a failing stream can move. */
  ghost predicate Settled(s: State) {
    forall a :: Enabled(s, a) ==> FromOutside(a) || a.Cancel? || (a.Recv? && !a.ok)
  }

  predicate Open(s: State, w: nat) { w < |s.watchers| && s.watchers[w].pc != Closed }

  /**
   * Where a run settles, every open watcher has sent the current document last unless the guard of its
   * loop holds it back, and every open client has received all that was sent.
   */
  lemma SettledIsCurrent(s: State, w: nat)
    requires Reachable(s) && Settled(s) && Open(s, w)
    ensures var x := s.watchers[w];
      && (UpToDate(x, Current(s)) || s.revision < x.sent)
      && x.log != [] && (x.client != HungUp ==> x.out == x.log)
  {
    ReachableInv(s);
    assert WatcherInv(s, w);
    assert !Enabled(s, Read(w)) && !Enabled(s, Send(w, true)) && !Enabled(s, Wake(w));
    assert !Enabled(s, Recv(w, true)) && !Enabled(s, Forward(w, true));
    forall k | 0 <= k < |s.setters| ensures s.setters[k].next == s.setters[k].count {
      assert !Enabled(s, Notify(k));
    }
    NoLostUpdate(s, w);
    if s.watchers[w].client != HungUp { assert s.watchers[w].out + [] + [] == s.watchers[w].out; }
  }

  /** After exactly which numbers of SetPolicy calls a settled watcher can be out of date. */
  lemma SettledExactly(n: nat)
    ensures (exists s, w: nat :: Reachable(s) && Calls(s) == n && Settled(s) && Open(s, w)
                                 && !UpToDate(s.watchers[w], Current(s)))
            <==> Wrapped(n)
  {
    if s, w: nat :| Reachable(s) && Calls(s) == n && Settled(s) && Open(s, w)
                    && !UpToDate(s.watchers[w], Current(s)) {
      SettledIsCurrent(s, w);
      HeldBack(s, w);
    }
    if Wrapped(n) { var s := LosingRun(n - TWO_64); }
  }

  // ---- A SetPolicy call nobody interrupts ----

  /** Every watcher has a token and nothing else about it changed. */
  function Woken(xs: seq<Watcher>): seq<Watcher> { seq(|xs|, i requires 0 <= i < |xs| => xs[i].(token := true)) }

  /** The posts a setter has left, one after the other. */
  lemma {:induction false} NotifyAll(s: State, k: nat) returns (run: seq<Action>)
    requires k < |s.setters| && s.setters[k].next <= s.setters[k].count == |s.watchers|
    requires forall i :: 0 <= i < s.setters[k].next ==> s.watchers[i].token
    ensures Legal(s, run)
    ensures var n := |s.watchers|;
      After(s, run) == s.(watchers := Woken(s.watchers), setters := s.setters[k := Setter(n, n)])
    decreases |s.watchers| - s.setters[k].next
  {
    if s.setters[k].next == |s.watchers| {
      run := [];
      assert Woken(s.watchers) == s.watchers;
    } else {
      var s1 := Next(s, Notify(k));
      var rest := NotifyAll(s1, k);
      run := [Notify(k)] + rest;
      assert run[1..] == rest;
      assert Woken(s1.watchers) == Woken(s.watchers);
    }
  }

  /** Uninterrupted, SetPolicy installs the document and leaves a token with every watcher. */
  lemma SetPolicyAlone(s: State, data: Bytes) returns (run: seq<Action>)
    ensures Legal(s, run)
    ensures var n := |s.watchers|;
      After(s, run) == State((s.revision + 1) % TWO_64, data, s.installed + [data],
                             Woken(s.watchers), s.setters + [Setter(n, n)])
  {
    var s1 := Next(s, Install(data));
    var rest := NotifyAll(s1, |s.setters|);
    run := [Install(data)] + rest;
    assert run[1..] == rest;
    var done := Setter(|s.watchers|, |s.watchers|);
    assert s1.setters[|s.setters| := done] == s.setters + [done];
  }

  // ---- What goes wrong when the revision, 64 bits wide, wraps ----

  function Copies<T>(n: nat, x: T): seq<T> { seq(n, _ => x) }

  /** A document that is not the empty one. */
  const SOME: Bytes := [0]

  /** `n` SetPolicy calls, all with the empty document, before anybody watches. */
  function Unwatched(n: nat): State {
    State(n % TWO_64, [], Copies(n + 1, []), [], Copies(n, Setter(0, 0)))
  }

  lemma {:induction false} UnwatchedReachable(n: nat)
    ensures Reachable(Unwatched(n))
  {
    if n == 0 {
      assert Unwatched(0) == INITIAL;
      assert Legal(INITIAL, []) && After(INITIAL, []) == INITIAL;
    } else {
      UnwatchedReachable(n - 1);
      var s := Unwatched(n - 1);
      var s' := Next(s, Install([]));
      NextResidue(n - 1);
      assert s'.installed == Unwatched(n).installed && s'.setters == Unwatched(n).setters;
      ReachableNext(s, Install([]));
    }
  }

  /** A watcher that registered after `m` calls, sent the empty document to its client and parked. */
  function Early(m: nat): Watcher {
    var doc := Doc(m % TWO_64, []);
    Watcher(Parked, (m % TWO_64 + 1) % TWO_64, false, m, [doc], [m], [], Receiving, [doc])
  }

  /** `k` more calls, each of them finished, without the watcher having moved. */
  function Later(m: nat, k: nat): State {
    State((m + k) % TWO_64, if k == 0 then [] else SOME, Copies(m + 1, []) + Copies(k, SOME),
          [Early(m).(token := k > 0)], Copies(m, Setter(0, 0)) + Copies(k, Setter(1, 1)))
  }

  /** The only watcher reads the current document and its stream accepts it. */
  lemma ReadAndSend(s: State, x: Watcher) returns (s': State)
    requires Reachable(s) && s.watchers == [x] && x.pc == Reading && s.revision >= x.sent
    ensures Reachable(s') && s' == s.(watchers := [Sent(x, Current(s), Calls(s))])
  {
    ReachableNext(s, Read(0));
    var s1 := Next(s, Read(0));
    ReachableNext(s1, Send(0, true));
    s' := Next(s1, Send(0, true));
    assert s'.watchers == [Sent(x, Current(s), Calls(s))];
  }

  /** Somebody watches: the only watcher's first document. */
  lemma WatchAndSend(s: State) returns (s': State)
    requires Reachable(s) && s.watchers == []
    ensures Reachable(s')
    ensures s' == s.(watchers := [Sent(Registered(Calls(s)), Current(s), Calls(s))])
  {
    ReachableNext(s, AddWatcher);
    s' := ReadAndSend(Next(s, AddWatcher), Next(s, AddWatcher).watchers[0]);
  }

  /** Its client takes the only document off the wire. */
  lemma Receives(s: State, x: Watcher, doc: Doc) returns (s': State)
    requires Reachable(s) && s.watchers == [x] && x.client == Receiving && x.wire == [doc]
    ensures Reachable(s') && s' == s.(watchers := [x.(wire := [], out := x.out + [doc])])
  {
    ReachableNext(s, Recv(0, true));
    var s1 := Next(s, Recv(0, true));
    assert x.wire[1..] == [] && s1.watchers[0] == x.(wire := [], client := Holding(doc));
    ReachableNext(s1, Forward(0, true));
    s' := Next(s1, Forward(0, true));
    assert s'.watchers == [x.(wire := [], out := x.out + [doc])];
  }

  lemma EarlyReachable(m: nat)
    ensures Reachable(Later(m, 0))
  {
    UnwatchedReachable(m);
    var s1 := WatchAndSend(Unwatched(m));
    var x, doc := s1.watchers[0], Doc(m % TWO_64, []);
    assert x.log == [doc] && x.dates == [m] && x.wire == [doc];
    var s2 := Receives(s1, x, doc);
    assert x.out + [doc] == [doc] && s2.watchers[0] == Early(m);
    assert s2.installed == Later(m, 0).installed && s2.setters == Later(m, 0).setters;
  }

  lemma {:induction false} LaterReachable(m: nat, k: nat)
    ensures Reachable(Later(m, k))
  {
    if k == 0 {
      EarlyReachable(m);
    } else {
      LaterReachable(m, k - 1);
      var s := Later(m, k - 1);
      ReachableNext(s, Install(SOME));
      var s1 := Next(s, Install(SOME));
      ReachableNext(s1, Notify(m + k - 1));
      var s2 := Next(s1, Notify(m + k - 1));
      NextResidue(m + k - 1);
      assert s2.installed == Later(m, k).installed && s2.setters == Later(m, k).setters;
      assert s2.watchers == Later(m, k).watchers;
    }
  }

  /**
   * Exactly 2^64 calls after a watcher sent its document the revision is back where it was, and the watcher
   * sleeps on.
   */
  lemma LosingRun(m: nat) returns (s: State)
    requires m % TWO_64 != TWO_64 - 1
    ensures Reachable(s) && Calls(s) == m + TWO_64 && Missed(s, 0) && Settled(s) && Open(s, 0)
  {
    var s0 := Later(m, TWO_64);
    LaterReachable(m, TWO_64);
    ReachableNext(s0, Wake(0));
    var s1 := Next(s0, Wake(0));
    ReachableNext(s1, Read(0));
    s := Next(s1, Read(0));
    assert (m + TWO_64) % TWO_64 == m % TWO_64;
  }

  /** `k` further calls change nothing about the watchers. */
  lemma {:induction false} MoreCalls(s: State, k: nat) returns (s': State)
    requires Reachable(s)
    ensures Reachable(s') && Calls(s') == Calls(s) + k && s'.watchers == s.watchers && s.installed <= s'.installed
  {
    if k == 0 {
      s' := s;
    } else {
      var s1 := MoreCalls(s, k - 1);
      ReachableNext(s1, Install([]));
      s' := Next(s1, Install([]));
    }
  }

  /** A setter posts to the only watcher, which leaves its select. */
  lemma NotifyAndWake(s: State, k: nat, x: Watcher) returns (s': State)
    requires Reachable(s) && s.watchers == [x] && x.pc == Parked && k < |s.setters| && s.setters[k] == Setter(0, 1)
    ensures Reachable(s') && s' == s.(watchers := [x.(pc := Reading, token := false)], setters := s'.setters)
  {
    ReachableNext(s, Notify(k));
    var s1 := Next(s, Notify(k));
    assert s1.watchers == [x.(token := true)];
    ReachableNext(s1, Wake(0));
    s' := Next(s1, Wake(0));
    assert s'.watchers == [x.(pc := Reading, token := false)];
  }

  /** A watcher that registered before call number 2^64 - 1 but read only after it. */
  lemma LastRevisionSent() returns (s: State, x: Watcher)
    ensures Reachable(s) && Calls(s) == TWO_64 - 1 && Current(s) == Doc(TWO_64 - 1, SOME)
    ensures s.watchers == [x] && x.pc == Parked && x.sent == 0 && x.log == [Current(s)]
    ensures |s.setters| == TWO_64 - 1 && s.setters[TWO_64 - 2] == Setter(0, 1)
  {
    var n := TWO_64 - 2;
    UnwatchedReachable(n);
    ReachableNext(Unwatched(n), AddWatcher);
    var s1 := Next(Unwatched(n), AddWatcher);
    ReachableNext(s1, Install(SOME));
    var s2 := Next(s1, Install(SOME));
    assert s2.watchers == [s2.watchers[0]] && s2.setters[n] == Setter(0, 1);
    s := ReadAndSend(s2, s2.watchers[0]);
    x := s.watchers[0];
  }

  /** Having sent revision 2^64 - 1 the watcher expects revision 0, so its next wake-up sends the same again. */
  lemma RepeatingRun(k: nat) returns (s: State)
    ensures Reachable(s) && Calls(s) == TWO_64 - 1 + k && |s.watchers| == 1
    ensures s.watchers[0].log == [Doc(TWO_64 - 1, SOME), Doc(TWO_64 - 1, SOME)]
  {
    var s3, x := LastRevisionSent();
    var s4 := NotifyAndWake(s3, TWO_64 - 2, x);
    var s5 := ReadAndSend(s4, s4.watchers[0]);
    s := MoreCalls(s5, k);
  }

  /** Call number 2^64 installs its document under revision 0. */
  lemma ReusingRun(k: nat) returns (s: State)
    ensures Reachable(s) && Calls(s) == TWO_64 + k && |s.watchers| == 1
    ensures s.watchers[0].log == [Doc(0, SOME)] && s.installed[0] == []
  {
    var s0 := Unwatched(TWO_64 - 1);
    UnwatchedReachable(TWO_64 - 1);
    ReachableNext(s0, Install(SOME));
    var s1 := WatchAndSend(Next(s0, Install(SOME)));
    s := MoreCalls(s1, k);
  }
}
