/**
 * The in-memory event bus: HostData.Publish and subscribe, topicMatches, and the
 * eventsServer.Subscribe loop, interleaved arbitrarily.
 *
 * Publish records under the lock and fans out outside it, one subscriber at a time, from
 * the snapshot it took; a full channel drops the event.
 */
module EventBus {
  import opened Common

  /** The capacity of a subscriber's channel. */
  const CAPACITY: nat := 64

  datatype Event = Event(topic: string, data: Bytes)

  // ---- Topics ----

  /** One pattern of topicMatches. */
  predicate PatternMatches(p: string, topic: string) {
    || p == topic
    || (|p| > 1 && p[|p| - 1] == '*' && |topic| >= |p| - 1 && topic[..|p| - 1] == p[..|p| - 1])
  }

  predicate Matches(patterns: seq<string>, topic: string) {
    exists i :: 0 <= i < |patterns| && PatternMatches(patterns[i], topic)
  }

  /** topicMatches. */
  method TopicMatches(patterns: seq<string>, topic: string) returns (found: bool)
    ensures found <==> Matches(patterns, topic)
  {
    for i := 0 to |patterns|
      invariant forall j :: 0 <= j < i ==> !PatternMatches(patterns[j], topic)
    {
      if patterns[i] == topic {
        return true;
      }
      var p, n := patterns[i], |patterns[i]|;
      if n > 1 && p[n - 1] == '*' && |topic| >= n - 1 && topic[..n - 1] == p[..n - 1] {
        return true;
      }
    }
    return false;
  }

  /** A pattern is an exact topic, or a non-empty prefix followed by a star; a lone star is only itself. */
  lemma PatternMeaning(p: string, topic: string)
    ensures PatternMatches(p, topic) <==> p == topic || exists q :: q != "" && p == q + "*" && q <= topic
  {
    if |p| > 1 && p[|p| - 1] == '*' {
      assert p == p[..|p| - 1] + "*";
    }
    forall q | q != "" && p == q + "*" && q <= topic ensures PatternMatches(p, topic) {
      assert p[..|p| - 1] == q && topic[..|q|] == q;
    }
  }

  /** What eventsServer.Publish stamps on a module's topic. */
  function Stamped(moduleId: string, topic: string): string { moduleId + "." + topic }

  /** What a module subscribes to for all events of `moduleId`. */
  function GlobOf(moduleId: string): string { moduleId + ".*" }

  /** `inner` is `outer` itself or `outer`, a dot and more. */
  predicate Within(inner: string, outer: string) { outer + "." <= inner + "." }

  lemma GlobMatches(subscribed: string, topic: string)
    ensures PatternMatches(GlobOf(subscribed), topic) <==> subscribed + "." <= topic
  {
    var p := GlobOf(subscribed);
    assert p == subscribed + "." + "*" && p[..|p| - 1] == subscribed + ".";
  }

  /** Two prefixes of one string are comparable. */
  lemma Comparable(a: string, b: string, w: string)
    requires a <= w && b <= w
    ensures a <= b || b <= a
  {
    assert if |a| <= |b| then a == b[..|a|] else b == a[..|b|];
  }

  /**
   * Whose events a module's glob can match: exactly those of publishers whose id is the module's own, or one
   * that continues it after a dot, or one that it continues after a dot. In the first two cases it matches all.
   */
  lemma OriginsExactly(subscribed: string, publisher: string)
    ensures (exists topic :: PatternMatches(GlobOf(subscribed), Stamped(publisher, topic)))
            <==> Within(publisher, subscribed) || Within(subscribed, publisher)
    ensures (forall topic :: PatternMatches(GlobOf(subscribed), Stamped(publisher, topic)))
            <==> Within(publisher, subscribed)
  {
    hide PatternMatches;
    forall topic
      ensures PatternMatches(GlobOf(subscribed), Stamped(publisher, topic))
              <==> subscribed + "." <= publisher + "." + topic
    {
      GlobMatches(subscribed, Stamped(publisher, topic));
    }
    if topic :| PatternMatches(GlobOf(subscribed), Stamped(publisher, topic)) {
      Comparable(subscribed + ".", publisher + ".", Stamped(publisher, topic));
    }
    assert Stamped(publisher, "") == publisher + ".";
    if Within(subscribed, publisher) {
      var topic := (subscribed + ".")[|publisher| + 1..];
      assert Stamped(publisher, topic) == subscribed + ".";
      assert PatternMatches(GlobOf(subscribed), Stamped(publisher, topic));
    }
    if Within(publisher, subscribed) {
      forall topic ensures PatternMatches(GlobOf(subscribed), Stamped(publisher, topic)) {
        assert publisher + "." <= Stamped(publisher, topic);
      }
    }
  }

  lemma WithinDotFree(inner: string, outer: string)
    requires '.' !in inner && Within(inner, outer)
    ensures inner == outer
  {
    var w := inner + ".";
    assert w[|outer|] == (outer + ".")[|outer|] == '.';
    assert forall i :: 0 <= i < |inner| ==> w[i] in inner;
    assert |outer| == |inner|;
    assert outer == (outer + ".")[..|outer|] == w[..|inner|];
  }

  /** Origins are trustworthy where ids have no dot: one module's glob matches exactly that module's events. */
  lemma OriginIsolation(subscribed: string, publisher: string, topic: string)
    requires '.' !in subscribed && '.' !in publisher
    ensures PatternMatches(GlobOf(subscribed), Stamped(publisher, topic)) <==> subscribed == publisher
  {
    hide PatternMatches;
    OriginsExactly(subscribed, publisher);
    if Within(publisher, subscribed) { WithinDotFree(publisher, subscribed); }
    if Within(subscribed, publisher) { WithinDotFree(subscribed, publisher); }
  }

  /** With a dot in an id they are not: the topic alone cannot tell these publishers apart. */
  lemma OriginsConfused()
    ensures PatternMatches(GlobOf("a.b"), Stamped("a", "b.x")) && PatternMatches(GlobOf("a"), Stamped("a.b", "x"))
    ensures Stamped("a", "b.x") == Stamped("a.b", "x")
  {
    GlobMatches("a.b", Stamped("a", "b.x"));
    GlobMatches("a", Stamped("a.b", "x"));
  }

  // ---- The bus ----

  /**
   * One subscriber; events are named by their index in the record. `queue` is its channel,
   * `sent` what its stream accepted, `failed` the event a broken stream was handed, `dropped`
   * what found the channel full.
   */
  datatype Subscriber = Subscriber(
    topics: seq<string>, queue: seq<nat>, sent: seq<nat>, failed: seq<nat>, dropped: seq<nat>, open: bool)

  /**
   * The Publish call that recorded event k is fanning out to subscribers next..count;
   * `before` holds the calls that had returned when it recorded its event.
   */
  datatype Publisher = Publisher(next: nat, count: nat, before: set<nat>)

  datatype State = State(events: seq<Event>, pubs: seq<Publisher>, subs: seq<Subscriber>)

  datatype Action =
    | Subscribe(topics: seq<string>)
    | Publish(topic: string, data: Bytes)
    | Deliver(k: nat)
    | Take(i: nat, ok: bool)
    | Hangup(i: nat)

  const EMPTY := State([], [], [])

  predicate Returned(p: Publisher) { p.next == p.count }

  predicate Enabled(s: State, a: Action) {
    match a
    case Subscribe(_) => true
    case Publish(_, _) => true
    case Deliver(k) =>
      k < |s.pubs| && k < |s.events| && s.pubs[k].next < s.pubs[k].count && s.pubs[k].next < |s.subs|
    case Take(i, _) => i < |s.subs| && s.subs[i].open && s.subs[i].queue != []
    case Hangup(i) => i < |s.subs| && s.subs[i].open
  }

  /** The non-blocking send of event `k` to one subscriber. */
  function Offer(x: Subscriber, k: nat, topic: string): Subscriber {
    if !Matches(x.topics, topic) then x
    else if |x.queue| < CAPACITY then x.(queue := x.queue + [k])
    else x.(dropped := x.dropped + [k])
  }

  /** The Subscribe loop takes one event off the channel and sends it. */
  function TakeOne(x: Subscriber, ok: bool): Subscriber
    requires x.queue != []
  {
    if ok then x.(queue := x.queue[1..], sent := x.sent + [x.queue[0]])
    else x.(queue := x.queue[1..], failed := x.failed + [x.queue[0]], open := false)
  }

  function Next(s: State, a: Action): State
    requires Enabled(s, a)
  {
    match a
    case Subscribe(topics) => s.(subs := s.subs + [Subscriber(topics, [], [], [], [], true)])
    case Publish(topic, data) =>
      s.(events := s.events + [Event(topic, data)],
         pubs := s.pubs + [Publisher(0, |s.subs|, set k: nat | k < |s.pubs| && Returned(s.pubs[k]))])
    case Deliver(k) =>
      var i := s.pubs[k].next;
      s.(subs := s.subs[i := Offer(s.subs[i], k, s.events[k].topic)], pubs := s.pubs[k := s.pubs[k].(next := i + 1)])
    case Take(i, ok) => s.(subs := s.subs[i := TakeOne(s.subs[i], ok)])
    case Hangup(i) => s.(subs := s.subs[i := s.subs[i].(open := false)])
  }

  predicate Legal(s: State, run: seq<Action>)
    decreases |run|
  {
    run == [] || (Enabled(s, run[0]) && Legal(Next(s, run[0]), run[1..]))
  }

  function After(s: State, run: seq<Action>): State
    requires Legal(s, run)
    decreases |run|
  {
    if run == [] then s else After(Next(s, run[0]), run[1..])
  }

  // ---- The invariant ----

  /** Everything that ever became of the events offered to a subscriber. */
  function Fate(x: Subscriber): multiset<nat> {
    multiset(x.sent) + multiset(x.failed) + multiset(x.queue) + multiset(x.dropped)
  }

  /** The subscriber's stream in order: sent, then the one that broke it, then still queued. */
  function Stream(x: Subscriber): seq<nat> { x.sent + x.failed + x.queue }

  /** Publisher k has dealt with subscriber i, whose topics match. */
  ghost predicate Offered(s: State, k: nat, i: nat)
    requires i < |s.subs|
  {
    k < |s.pubs| && k < |s.events| && i < s.pubs[k].next && Matches(s.subs[i].topics, s.events[k].topic)
  }

  /** No two events of a stream appear against the order in which their Publish calls took place. */
  ghost predicate RealTimeOrder(stream: seq<nat>, pubs: seq<Publisher>) {
    forall a, b :: 0 <= a < b < |stream| && stream[a] < |pubs| ==> stream[b] !in pubs[stream[a]].before
  }

  ghost predicate PubInv(pubs: seq<Publisher>, n: nat) {
    forall k :: 0 <= k < |pubs| ==>
      && pubs[k].next <= pubs[k].count <= n
      && forall j :: j in pubs[k].before ==> j < k && Returned(pubs[j])
  }

  ghost predicate SubInv(s: State, i: nat)
    requires i < |s.subs|
  {
    var x := s.subs[i];
    && |x.queue| <= CAPACITY
    && (forall k: nat :: Fate(x)[k] == if Offered(s, k, i) then 1 else 0)
    && RealTimeOrder(Stream(x), s.pubs)
    && (x.open ==> x.failed == []) && |x.failed| <= 1
  }

  ghost predicate Inv(s: State) {
    && |s.events| == |s.pubs| && PubInv(s.pubs, |s.subs|)
    && forall i: nat :: i < |s.subs| ==> SubInv(s, i)
  }

  lemma KeepsSubscribe(s: State, topics: seq<string>)
    requires Inv(s)
    ensures Inv(Next(s, Subscribe(topics)))
  {
    var s' := Next(s, Subscribe(topics));
    forall i: nat | i < |s'.subs| ensures SubInv(s', i) {
      if i < |s.subs| {
        assert SubInv(s, i);
        forall k: nat ensures Offered(s', k, i) == Offered(s, k, i) {}
      }
    }
  }

  lemma KeepsPublish(s: State, topic: string, data: Bytes)
    requires Inv(s)
    ensures Inv(Next(s, Publish(topic, data)))
  {
    var s' := Next(s, Publish(topic, data));
    forall i: nat | i < |s'.subs| ensures SubInv(s', i) {
      assert SubInv(s, i);
      forall k: nat ensures Offered(s', k, i) == Offered(s, k, i) {}
      StreamKnown(s, i);
      var stream := Stream(s.subs[i]);
      forall a, b | 0 <= a < b < |stream| && stream[a] < |s'.pubs|
        ensures stream[b] !in s'.pubs[stream[a]].before
      {
        assert stream[a] in stream;
      }
    }
  }

  /** Only events that were offered are in a stream. */
  lemma StreamKnown(s: State, i: nat)
    requires i < |s.subs| && SubInv(s, i)
    ensures forall k :: k in Stream(s.subs[i]) ==> Offered(s, k, i) && Fate(s.subs[i])[k] == 1
  {
    var x := s.subs[i];
    forall k | k in Stream(x) ensures Offered(s, k, i) && Fate(x)[k] == 1 {
      assert k in multiset(x.sent) + multiset(x.failed) + multiset(x.queue);
      assert Fate(x)[k] > 0;
    }
  }

  lemma KeepsOrder(s: State, k: nat)
    requires Inv(s) && Enabled(s, Deliver(k))
    ensures var i := s.pubs[k].next;
      RealTimeOrder(Stream(Next(s, Deliver(k)).subs[i]), s.pubs)
  {
    var i := s.pubs[k].next;
    var x, x' := s.subs[i], Next(s, Deliver(k)).subs[i];
    assert SubInv(s, i);
    StreamKnown(s, i);
    if Stream(x') != Stream(x) {
      assert Stream(x') == Stream(x) + [k];
      forall a, b | 0 <= a < b < |Stream(x')| && Stream(x')[a] < |s.pubs|
        ensures Stream(x')[b] !in s.pubs[Stream(x')[a]].before
      {
        assert Stream(x')[a] == Stream(x)[a];
        if b == |Stream(x)| { assert !Returned(s.pubs[k]); }
      }
    }
  }

  lemma KeepsDeliver(s: State, k: nat)
    requires Inv(s) && Enabled(s, Deliver(k))
    ensures Inv(Next(s, Deliver(k)))
  {
    var i, s' := s.pubs[k].next, Next(s, Deliver(k));
    KeepsOrder(s, k);
    assert forall j :: 0 <= j < |s.pubs| ==> s'.pubs[j].before == s.pubs[j].before;
    forall j: nat | j < |s'.subs| ensures SubInv(s', j) {
      assert SubInv(s, j);
      assert Stream(s'.subs[j]) == Stream(s.subs[j]) || j == i;
      FateAfterDeliver(s, k, j);
    }
  }

  lemma OfferFate(x: Subscriber, k: nat, topic: string)
    ensures Fate(Offer(x, k, topic)) == if Matches(x.topics, topic) then Fate(x) + multiset{k} else Fate(x)
  {
    hide Matches;
    if Matches(x.topics, topic) {
      if |x.queue| < CAPACITY {
        assert multiset(x.queue + [k]) == multiset(x.queue) + multiset{k};
      } else {
        assert multiset(x.dropped + [k]) == multiset(x.dropped) + multiset{k};
      }
    }
  }

  lemma FateAfterDeliver(s: State, k: nat, j: nat)
    requires Enabled(s, Deliver(k)) && j < |s.subs| && SubInv(s, j)
    ensures var s' := Next(s, Deliver(k));
      forall m: nat :: Fate(s'.subs[j])[m] == if Offered(s', m, j) then 1 else 0
  {
    hide Fate, Matches, RealTimeOrder;
    var s' := Next(s, Deliver(k));
    OfferFate(s.subs[j], k, s.events[k].topic);
    forall m: nat ensures Fate(s'.subs[j])[m] == if Offered(s', m, j) then 1 else 0 {
      if j != s.pubs[k].next || m != k {
        assert Offered(s', m, j) == Offered(s, m, j);
      }
    }
  }

  /** Taking an event off the channel changes neither what became of which event nor their order. */
  lemma TakeKeepsFate(x: Subscriber, ok: bool)
    requires x.queue != []
    ensures Fate(TakeOne(x, ok)) == Fate(x)
  {
    var q := x.queue[0];
    assert x.queue == [q] + x.queue[1..];
    assert multiset(x.queue) == multiset{q} + multiset(x.queue[1..]);
    if ok {
      assert multiset(TakeOne(x, ok).sent) == multiset(x.sent) + multiset{q};
    } else {
      assert multiset(TakeOne(x, ok).failed) == multiset(x.failed) + multiset{q};
    }
  }

  lemma TakeKeepsStream(x: Subscriber, ok: bool)
    requires x.queue != [] && x.failed == []
    ensures Stream(TakeOne(x, ok)) == Stream(x)
  {
    assert x.queue == [x.queue[0]] + x.queue[1..];
    assert Stream(x) == x.sent + [x.queue[0]] + x.queue[1..];
    assert Stream(TakeOne(x, ok)) == x.sent + [x.queue[0]] + x.queue[1..];
  }

  lemma KeepsTake(s: State, i: nat, ok: bool)
    requires Inv(s) && Enabled(s, Take(i, ok))
    ensures Inv(Next(s, Take(i, ok)))
  {
    hide Fate, Stream, RealTimeOrder, Matches;
    var s' := Next(s, Take(i, ok));
    assert SubInv(s, i);
    TakeKeepsFate(s.subs[i], ok);
    TakeKeepsStream(s.subs[i], ok);
    forall j: nat | j < |s'.subs| ensures SubInv(s', j) {
      assert SubInv(s, j);
      forall k: nat ensures Offered(s', k, j) == Offered(s, k, j) {}
    }
  }

  lemma KeepsHangup(s: State, i: nat)
    requires Inv(s) && Enabled(s, Hangup(i))
    ensures Inv(Next(s, Hangup(i)))
  {
    var s' := Next(s, Hangup(i));
    forall j: nat | j < |s'.subs| ensures SubInv(s', j) {
      assert SubInv(s, j);
      forall k: nat ensures Offered(s', k, j) == Offered(s, k, j) {}
    }
  }

  lemma StepKeeps(s: State, a: Action)
    requires Inv(s) && Enabled(s, a)
    ensures Inv(Next(s, a))
  {
    hide Inv;
    match a
    case Subscribe(topics) => KeepsSubscribe(s, topics);
    case Publish(topic, data) => KeepsPublish(s, topic, data);
    case Deliver(k) => KeepsDeliver(s, k);
    case Take(i, ok) => KeepsTake(s, i, ok);
    case Hangup(i) => KeepsHangup(s, i);
  }

  lemma {:induction false} RunKeeps(s: State, run: seq<Action>)
    requires Inv(s) && Legal(s, run)
    ensures Inv(After(s, run))
    decreases |run|
  {
    if run != [] {
      hide Inv;
      StepKeeps(s, run[0]);
      RunKeeps(Next(s, run[0]), run[1..]);
    }
  }

  // ---- Theorems over every interleaving ----

  /** The publishes whose snapshot includes subscriber i and whose topic matches. */
  ghost function Due(s: State, i: nat): set<nat>
    requires i < |s.subs| && |s.events| == |s.pubs|
  {
    set k: nat | k < |s.pubs| && i < s.pubs[k].count && Matches(s.subs[i].topics, s.events[k].topic)
  }

  /** Those of them whose Publish call has not come to subscriber i yet. */
  ghost function StillPending(s: State, i: nat): set<nat>
    requires i < |s.subs| && |s.events| == |s.pubs|
  {
    set k: nat | k in Due(s, i) && s.pubs[k].next <= i
  }

  /**
   * Conservation: every matching publish due to a subscriber was sent, broke its stream, is queued,
   * was dropped, or is pending, exactly one of these and exactly once; nothing else ever reaches it.
   */
  lemma FanOutConservation(run: seq<Action>, i: nat)
    requires Legal(EMPTY, run) && i < |After(EMPTY, run).subs|
    ensures var s := After(EMPTY, run);
      var x := s.subs[i];
      && |s.events| == |s.pubs|
      && Fate(x) == multiset(Due(s, i) - StillPending(s, i))
      && |x.sent| + |x.failed| + |x.queue| + |x.dropped| + |StillPending(s, i)| == |Due(s, i)|
      && |x.failed| <= 1 && |x.queue| <= 64
  {
    RunKeeps(EMPTY, run);
    var s := After(EMPTY, run);
    assert SubInv(s, i);
    var done: set<nat> := Due(s, i) - StillPending(s, i);
    var fates: multiset<nat> := multiset(done);
    forall k: nat ensures Fate(s.subs[i])[k] == fates[k] {
      assert k in done <==> Offered(s, k, i);
    }
    assert Fate(s.subs[i]) == fates;
    assert StillPending(s, i) <= Due(s, i);
    assert |Fate(s.subs[i])| == |done|;
  }

  /**
   * What each step does to one subscription's stream: only a successful send adds to it, and it stays open;
   * only a failing send breaks it, and ends the subscription, which otherwise only a hang-up does.
   */
  lemma SendsExactly(s: State, a: Action, i: nat)
    requires Enabled(s, a) && i < |s.subs|
    ensures var x, x' := s.subs[i], Next(s, a).subs[i];
      && x'.topics == x.topics
      && x'.sent == (if a == Take(i, true) then x.sent + [x.queue[0]] else x.sent)
      && x'.failed == (if a == Take(i, false) then x.failed + [x.queue[0]] else x.failed)
      && x'.open == (x.open && a != Take(i, false) && a != Hangup(i))
      && (a.Take? && a.i == i ==> x.queue == [x.queue[0]] + x'.queue)
  {
  }

  function Count(run: seq<Action>, a: Action): nat { multiset(run)[a] }

  lemma {:induction false} SubscriptionRun(s: State, run: seq<Action>, i: nat)
    requires Legal(s, run) && i < |s.subs|
    ensures var x, s' := s.subs[i], After(s, run);
      && i < |s'.subs| && x.sent <= s'.subs[i].sent
      && |s'.subs[i].sent| == |x.sent| + Count(run, Take(i, true))
      && |s'.subs[i].failed| == |x.failed| + Count(run, Take(i, false))
      && (s'.subs[i].open <==> x.open && Take(i, false) !in run && Hangup(i) !in run)
    decreases |run|
  {
    hide Enabled, Next;
    if run != [] {
      assert run == [run[0]] + run[1..];
      SubscribersStay(s, run[0]);
      SendsExactly(s, run[0], i);
      SubscriptionRun(Next(s, run[0]), run[1..], i);
    }
  }

  lemma SubscribersStay(s: State, a: Action)
    requires Enabled(s, a)
    ensures |Next(s, a).subs| == |s.subs| + (if a.Subscribe? then 1 else 0)
  {
  }

  /** A new subscription, and the run from there on. */
  lemma {:induction false} SubscribedAt(s: State, run: seq<Action>, i: nat)
    requires Legal(s, run) && |s.subs| <= i < |After(s, run).subs|
    ensures var x := After(s, run).subs[i];
      && |x.sent| == Count(run, Take(i, true)) && |x.failed| == Count(run, Take(i, false))
      && (x.open <==> Take(i, false) !in run && Hangup(i) !in run)
    decreases |run|
  {
    var a := run[0];
    assert run == [a] + run[1..];
    assert a != Take(i, true) && a != Take(i, false) && a != Hangup(i);
    SubscribersStay(s, a);
    if a.Subscribe? && |s.subs| == i {
      assert Next(s, a).subs[i] == Subscriber(a.topics, [], [], [], [], true);
      SubscriptionRun(Next(s, a), run[1..], i);
    } else {
      SubscribedAt(Next(s, a), run[1..], i);
    }
  }

  /**
   * Over every run: a subscription's stream has accepted as many events as there were successful sends, was
   * broken exactly if one failed, and is open exactly if none failed and nobody hung up.
   */
  lemma StreamsExactly(run: seq<Action>, i: nat)
    requires Legal(EMPTY, run) && i < |After(EMPTY, run).subs|
    ensures var x := After(EMPTY, run).subs[i];
      && |x.sent| == Count(run, Take(i, true))
      && |x.failed| == Count(run, Take(i, false)) && (x.failed == [] <==> Take(i, false) !in run)
      && (x.open <==> Take(i, false) !in run && Hangup(i) !in run)
  {
    SubscribedAt(EMPTY, run, i);
  }

  /** A drop happens only at the moment of a delivery that finds exactly 64 events queued. */
  lemma DropsOnlyWhenFull(s: State, a: Action, i: nat)
    requires Inv(s) && Enabled(s, a) && i < |s.subs|
    ensures Next(s, a).subs[i].dropped != s.subs[i].dropped ==>
      && |s.subs[i].queue| == 64 && a.Deliver? && s.pubs[a.k].next == i
      && Next(s, a).subs[i].dropped == s.subs[i].dropped + [a.k] && Next(s, a).subs[i].queue == s.subs[i].queue
  {
    assert SubInv(s, i);
  }

  /** Streams respect real time: an event whose Publish returned before another was recorded never follows it. */
  lemma StreamsRespectTime(run: seq<Action>, i: nat, a: nat, b: nat)
    requires Legal(EMPTY, run) && i < |After(EMPTY, run).subs|
    requires a < b < |Stream(After(EMPTY, run).subs[i])|
    ensures var s := After(EMPTY, run);
      var stream := Stream(s.subs[i]);
      && stream[a] < |s.pubs| && stream[b] < |s.pubs| && stream[a] != stream[b]
      && stream[b] !in s.pubs[stream[a]].before
  {
    RunKeeps(EMPTY, run);
    var s := After(EMPTY, run);
    assert SubInv(s, i);
    StreamKnown(s, i);
    var stream := Stream(s.subs[i]);
    assert stream[a] in stream && stream[b] in stream;
    if stream[a] == stream[b] { TwiceInStream(s.subs[i], a, b); }
  }

  lemma TwiceInStream(x: Subscriber, a: nat, b: nat)
    requires a < b < |Stream(x)| && Stream(x)[a] == Stream(x)[b]
    ensures Fate(x)[Stream(x)[a]] >= 2
  {
    var st := Stream(x);
    assert st == st[..b] + [st[b]] + st[b + 1..];
    assert st[a] in multiset(st[..b]) by { assert st[..b][a] == st[a]; }
    assert multiset(st) == multiset(x.sent) + multiset(x.failed) + multiset(x.queue);
  }

  /** Publish calls do not overlap: each records its event only after all earlier ones returned. */
  ghost predicate Serialised(s: State) {
    forall j, k :: 0 <= j < k < |s.pubs| ==> j in s.pubs[k].before
  }

  /** With serialised publishers every stream is an in-order subsequence of the record. */
  lemma SerialisedInOrder(run: seq<Action>, i: nat, a: nat, b: nat)
    requires Legal(EMPTY, run) && i < |After(EMPTY, run).subs| && Serialised(After(EMPTY, run))
    requires a < b < |Stream(After(EMPTY, run).subs[i])|
    ensures Stream(After(EMPTY, run).subs[i])[a] < Stream(After(EMPTY, run).subs[i])[b]
  {
    StreamsRespectTime(run, i, a, b);
  }

  lemma Prepend(s: State, a: Action, rest: seq<Action>)
    requires Enabled(s, a) && Legal(Next(s, a), rest)
    ensures Legal(s, [a] + rest) && After(s, [a] + rest) == After(Next(s, a), rest)
  {
    hide Enabled, Next;
    assert ([a] + rest)[1..] == rest;
  }

  /** Without it they need not be: two overlapping publishers can be delivered against the record. */
  lemma OverlapCanReorder()
    ensures exists run ::
      Legal(EMPTY, run) && |After(EMPTY, run).subs| == 1 && Stream(After(EMPTY, run).subs[0]) == [1, 0]
  {
    var s1 := Next(EMPTY, Subscribe(["t"]));
    var s2 := Next(s1, Publish("t", []));
    var s3 := Next(s2, Publish("t", []));
    assert Matches(["t"], "t") by { assert PatternMatches(["t"][0], "t"); }
    var s4 := Next(s3, Deliver(1));
    var s5 := Next(s4, Deliver(0));
    assert s5.subs[0].queue == [1, 0];
    Prepend(s4, Deliver(0), []);
    Prepend(s3, Deliver(1), [Deliver(0)] + []);
    Prepend(s2, Publish("t", []), [Deliver(1)] + ([Deliver(0)] + []));
    Prepend(s1, Publish("t", []), [Publish("t", [])] + ([Deliver(1)] + ([Deliver(0)] + [])));
    Prepend(EMPTY, Subscribe(["t"]), [Publish("t", [])] + ([Publish("t", [])] + ([Deliver(1)] + ([Deliver(0)] + []))));
  }

  lemma {:induction false} RunThen(s: State, first: seq<Action>, second: seq<Action>)
    requires Legal(s, first) && Legal(After(s, first), second)
    ensures Legal(s, first + second) && After(s, first + second) == After(After(s, first), second)
    decreases |first|
  {
    hide Enabled, Next;
    if first == [] {
      assert first + second == second;
    } else {
      RunThen(Next(s, first[0]), first[1..], second);
      assert (first + second)[1..] == first[1..] + second;
    }
  }

  /** Publisher k is on its way to subscriber i, whose topics match. */
  ghost predicate OnItsWay(s: State, k: nat, i: nat) {
    && |s.events| == |s.pubs| && k < |s.pubs| && i < |s.subs|
    && s.pubs[k].next <= i < s.pubs[k].count && Matches(s.subs[i].topics, s.events[k].topic)
  }

  /** Only publisher k and the queues it passes have changed; subscriber i has its event queued. */
  ghost predicate Passed(s: State, s': State, k: nat, i: nat) {
    && s'.events == s.events && |s'.pubs| == |s.pubs| && |s'.subs| == |s.subs| && i < |s.subs|
    && (forall m :: 0 <= m < |s.pubs| && m != k ==> s'.pubs[m] == s.pubs[m])
    && s'.subs[i] == s.subs[i].(queue := s.subs[i].queue + [k])
  }

  /** Running publisher k alone until it has passed subscriber i. */
  lemma {:induction false} DeliverThrough(s: State, k: nat, i: nat) returns (run: seq<Action>)
    requires OnItsWay(s, k, i) && |s.subs[i].queue| < CAPACITY
    ensures Legal(s, run) && Passed(s, After(s, run), k, i)
    decreases i - s.pubs[k].next
  {
    var s1 := Next(s, Deliver(k));
    if s.pubs[k].next == i {
      Prepend(s, Deliver(k), []);
      run := [Deliver(k)] + [];
    } else {
      var rest := DeliverThrough(s1, k, i);
      Prepend(s, Deliver(k), rest);
      run := [Deliver(k)] + rest;
    }
  }

  /** Wherever two publishers overlap on a subscriber with room, the later event can overtake the earlier one. */
  lemma OverlapCanAlwaysReorder(s: State, j: nat, k: nat, i: nat) returns (run: seq<Action>)
    requires j < k && OnItsWay(s, j, i) && OnItsWay(s, k, i) && |s.subs[i].queue| + 2 <= CAPACITY
    ensures Legal(s, run) && i < |After(s, run).subs|
    ensures After(s, run).subs[i].queue == s.subs[i].queue + [k, j]
  {
    hide Legal, After, Enabled, Next, Matches;
    var first := DeliverThrough(s, k, i);
    var second := DeliverThrough(After(s, first), j, i);
    RunThen(s, first, second);
    run := first + second;
  }

  // ---- A Publish call nobody interrupts ----

  /** The deliveries publisher k has left, one after the other. */
  lemma {:induction false} DeliverAll(s: State, k: nat) returns (run: seq<Action>)
    requires |s.events| == |s.pubs| && k < |s.pubs| && s.pubs[k].next <= s.pubs[k].count <= |s.subs|
    ensures Legal(s, run)
    ensures var s' := After(s, run);
      && s'.events == s.events && s'.pubs == s.pubs[k := s.pubs[k].(next := s.pubs[k].count)] && |s'.subs| == |s.subs|
      && (forall i :: 0 <= i < |s.subs| ==>
            s'.subs[i] == if s.pubs[k].next <= i < s.pubs[k].count then Offer(s.subs[i], k, s.events[k].topic)
                          else s.subs[i])
    decreases s.pubs[k].count - s.pubs[k].next
  {
    hide Offer;
    if Returned(s.pubs[k]) {
      run := [];
    } else {
      var s1 := Next(s, Deliver(k));
      var rest := DeliverAll(s1, k);
      Prepend(s, Deliver(k), rest);
      run := [Deliver(k)] + rest;
    }
  }

  /** Uninterrupted, Publish records the event and offers it to every subscriber. */
  lemma PublishAlone(s: State, topic: string, data: Bytes) returns (run: seq<Action>)
    requires |s.events| == |s.pubs|
    ensures Legal(s, run)
    ensures var s' := After(s, run);
      && s'.events == s.events + [Event(topic, data)] && |s'.subs| == |s.subs|
      && forall i :: 0 <= i < |s.subs| ==> s'.subs[i] == Offer(s.subs[i], |s.events|, topic)
  {
    hide Offer;
    var s1 := Next(s, Publish(topic, data));
    var rest := DeliverAll(s1, |s.events|);
    Prepend(s, Publish(topic, data), rest);
    run := [Publish(topic, data)] + rest;
  }
}
