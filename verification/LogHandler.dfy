/**
 * The log stream with its fallback: streamHandler.Handle, send, WithAttrs and WithGroup,
 * for a whole tree of handlers derived from one another.
 */
module LogHandler {
  import opened Common

  datatype Attr = Attr(key: string, value: string)

  // ---- The attributes of one record ----

  /** The value the last attribute with this key carries. */
  function LastValue(attrs: seq<Attr>, key: string): Option<string> {
    if attrs == [] then None
    else
      var a := attrs[|attrs| - 1];
      if a.key == key then Some(a.value) else LastValue(attrs[..|attrs| - 1], key)
  }

  /** The key a record's attribute is sent under. */
  function Grouped(group: string, key: string): string { if group != "" then group + "." + key else key }

  /** A record's attributes under the handler's group. */
  function InGroup(attrs: seq<Attr>, group: string): seq<Attr> {
    seq(|attrs|, i requires 0 <= i < |attrs| => Attr(Grouped(group, attrs[i].key), attrs[i].value))
  }

  /** What a key means: the record's own attributes win over the handler's, and later ones over earlier ones. */
  function Meaning(handlerAttrs: seq<Attr>, recordAttrs: seq<Attr>, group: string, key: string): Option<string> {
    var own := LastValue(InGroup(recordAttrs, group), key);
    if own.Some? then own else LastValue(handlerAttrs, key)
  }

  ghost predicate Represents(m: map<string, string>, attrs: seq<Attr>) {
    forall k :: (if k in m then Some(m[k]) else None) == LastValue(attrs, k)
  }

  lemma RepresentsSnoc(m: map<string, string>, attrs: seq<Attr>, a: Attr)
    requires Represents(m, attrs)
    ensures Represents(m[a.key := a.value], attrs + [a])
  {
    assert (attrs + [a])[..|attrs|] == attrs;
  }

  lemma {:induction false} LastValueAppend(a: seq<Attr>, b: seq<Attr>, key: string)
    ensures LastValue(a + b, key) == (if LastValue(b, key).Some? then LastValue(b, key) else LastValue(a, key))
  {
    if b == [] {
      assert a + b == a;
    } else {
      LastValueAppend(a, b[..|b| - 1], key);
      assert (a + b)[..|a + b| - 1] == a + b[..|b| - 1];
    }
  }

  /** The map Handle fills. */
  method BuildAttrs(handlerAttrs: seq<Attr>, recordAttrs: seq<Attr>, group: string) returns (m: map<string, string>)
    ensures forall k :: (if k in m then Some(m[k]) else None) == Meaning(handlerAttrs, recordAttrs, group, k)
  {
    m := map[];
    for i := 0 to |handlerAttrs|
      invariant Represents(m, handlerAttrs[..i])
    {
      RepresentsSnoc(m, handlerAttrs[..i], handlerAttrs[i]);
      assert handlerAttrs[..i + 1] == handlerAttrs[..i] + [handlerAttrs[i]];
      m := m[handlerAttrs[i].key := handlerAttrs[i].value];
    }
    assert handlerAttrs[..|handlerAttrs|] == handlerAttrs;
    ghost var own := InGroup(recordAttrs, group);
    assert handlerAttrs + own[..0] == handlerAttrs;
    for i := 0 to |recordAttrs|
      invariant Represents(m, handlerAttrs + own[..i])
    {
      RepresentsSnoc(m, handlerAttrs + own[..i], own[i]);
      assert handlerAttrs + own[..i + 1] == handlerAttrs + own[..i] + [own[i]];
      var key := recordAttrs[i].key;
      if group != "" {
        key := group + "." + key;
      }
      m := m[key := recordAttrs[i].value];
    }
    assert own[..|own|] == own;
    forall k ensures (if k in m then Some(m[k]) else None) == Meaning(handlerAttrs, recordAttrs, group, k) {
      LastValueAppend(handlerAttrs, own, k);
    }
  }

  // ---- One handler ----

  /** `stream` numbers the stream it writes to; `opens` counts the streams it opened itself. */
  datatype Handler = Handler(
    hasClient: bool, stream: Option<nat>, broken: bool, opens: nat, attrs: seq<Attr>, group: string)

  function NewHandler(hasClient: bool): Handler { Handler(hasClient, None, false, 0, [], "") }

  /**
   * One call of send: the handler afterwards, the stream whose Send it called with the record, if any,
   * and its answer. The answer is all that Handle learns; whether the stream took the record is up to the stream.
   */
  datatype Outcome = Outcome(handler: Handler, on: Option<nat>, answer: bool)

  /** send: `id` numbers the stream Write would open. */
  function Send(h: Handler, id: nat, openOk: bool, sendOk: bool): Outcome {
    if h.broken || !h.hasClient then Outcome(h, None, false)
    else if h.stream.None? && !openOk then Outcome(h.(broken := true), None, false)
    else
      var h' := if h.stream.None? then h.(stream := Some(id), opens := h.opens + 1) else h;
      if sendOk then Outcome(h', h'.stream, true) else Outcome(h'.(broken := true, stream := None), h'.stream, false)
  }

  /** Derived handlers share the stream but not the broken latch. */
  function WithAttrs(h: Handler, attrs: seq<Attr>): Handler {
    Handler(h.hasClient, h.stream, false, 0, h.attrs + attrs, h.group)
  }

  function WithGroup(h: Handler, name: string): Handler {
    Handler(h.hasClient, h.stream, false, 0, h.attrs, Grouped(h.group, name))
  }

  /** A derived handler's attributes: its own additions win over what it inherited; the group stays. */
  lemma WithAttrsAdds(h: Handler, more: seq<Attr>, key: string)
    ensures var d := WithAttrs(h, more);
      && d.group == h.group && d.hasClient == h.hasClient && d.stream == h.stream
      && LastValue(d.attrs, key) == if LastValue(more, key).Some? then LastValue(more, key) else LastValue(h.attrs, key)
  {
    LastValueAppend(h.attrs, more, key);
  }

  /** How a chain of derivations is asked for. */
  datatype Derivation = Attrs(attrs: seq<Attr>) | Group(name: string)

  function Derive(h: Handler, d: Derivation): Handler {
    match d
    case Attrs(attrs) => WithAttrs(h, attrs)
    case Group(name) => WithGroup(h, name)
  }

  function DeriveAll(h: Handler, ds: seq<Derivation>): Handler {
    if ds == [] then h else Derive(DeriveAll(h, ds[..|ds| - 1]), ds[|ds| - 1])
  }

  /** All attributes a chain adds, in order. */
  function AttrsOf(ds: seq<Derivation>): seq<Attr> {
    if ds == [] then []
    else
      var d := ds[|ds| - 1];
      AttrsOf(ds[..|ds| - 1]) + (match d case Attrs(attrs) => attrs case Group(_) => [])
  }

  /** The names of all groups a chain opens, outermost first, with a dot between any two. */
  function GroupsOf(ds: seq<Derivation>): string {
    if ds == [] then ""
    else
      var outer := GroupsOf(ds[..|ds| - 1]);
      match ds[|ds| - 1]
      case Attrs(_) => outer
      case Group(name) => if outer == "" then name else outer + "." + name
  }

  /**
   * What a handler derived from a fresh one by any chain sends with a record: under each key the record's
   * last attribute whose key, behind the names of the groups opened so far, is that key; else the last
   * attribute of that key among all those added, whose keys no group changes; else nothing.
   */
  lemma {:induction false} DerivedMeaning(hasClient: bool, ds: seq<Derivation>, record: seq<Attr>, key: string)
    ensures var h := DeriveAll(NewHandler(hasClient), ds);
      && h.attrs == AttrsOf(ds) && h.group == GroupsOf(ds) && h.hasClient == hasClient
      && Meaning(h.attrs, record, h.group, key) ==
           var own := LastValue(Prefixed(record, if GroupsOf(ds) == "" then "" else GroupsOf(ds) + "."), key);
           if own.Some? then own else LastValue(AttrsOf(ds), key)
    decreases |ds|
  {
    if ds != [] { DerivedMeaning(hasClient, ds[..|ds| - 1], record, key); }
    var prefix := if GroupsOf(ds) == "" then "" else GroupsOf(ds) + ".";
    forall i | 0 <= i < |record| ensures InGroup(record, GroupsOf(ds))[i] == Prefixed(record, prefix)[i] {
      assert "" + record[i].key == record[i].key;
    }
    assert InGroup(record, GroupsOf(ds)) == Prefixed(record, prefix);
  }

  /** A record's attributes with every key behind a prefix. */
  function Prefixed(attrs: seq<Attr>, prefix: string): seq<Attr> {
    seq(|attrs|, i requires 0 <= i < |attrs| => Attr(prefix + attrs[i].key, attrs[i].value))
  }

  /** The handler object itself, updating its fields under its mutex. */
  class StreamHandler {
    const hasClient: bool
    var stream: Option<nat>
    var broken: bool
    ghost var opens: nat

    constructor (hasClient: bool)
      ensures this.hasClient == hasClient && AsValue([], "") == NewHandler(hasClient)
    {
      this.hasClient := hasClient;
      stream, broken, opens := None, false, 0;
    }

    ghost function AsValue(attrs: seq<Attr>, group: string): Handler
      reads this
    {
      Handler(hasClient, stream, broken, opens, attrs, group)
    }

    /** `on` is the stream whose Send is called. */
    method TrySend(id: nat, openOk: bool, sendOk: bool) returns (on: Option<nat>, answer: bool)
      modifies this
      ensures Outcome(AsValue([], ""), on, answer) == Send(old(AsValue([], "")), id, openOk, sendOk)
    {
      on := None;
      if broken || !hasClient {
        return on, false;
      }
      if stream == None {
        if !openOk {
          broken := true;
          return on, false;
        }
        stream, opens := Some(id), opens + 1;
      }
      on := stream;
      if !sendOk {
        broken, stream := true, None;
        return on, false;
      }
      return on, true;
    }
  }

  // ---- A tree of handlers ----

  /**
   * Records are numbered as they are handled. Each stream lists what it took, which is what was sent on it
   * without an error, and the fallback what Handle gave it, which is what send answered false to.
   */
  datatype Tree = Tree(handlers: seq<Handler>, streams: seq<seq<nat>>, fallback: seq<nat>, handled: nat)

  datatype Action =
    | Handle(h: nat, openOk: bool, sendOk: bool)
    | DeriveAttrs(h: nat, attrs: seq<Attr>)
    | DeriveGroup(h: nat, name: string)

  function Root(hasClient: bool): Tree { Tree([NewHandler(hasClient)], [], [], 0) }

  predicate Enabled(t: Tree, a: Action) { a.h < |t.handlers| }

  function Next(t: Tree, a: Action): Tree
    requires Enabled(t, a)
  {
    var h := t.handlers[a.h];
    match a
    case DeriveAttrs(_, attrs) => t.(handlers := t.handlers + [WithAttrs(h, attrs)])
    case DeriveGroup(_, name) => t.(handlers := t.handlers + [WithGroup(h, name)])
    case Handle(_, openOk, sendOk) =>
      var o := Send(h, |t.streams|, openOk, sendOk);
      var streams := if o.handler.opens > h.opens then t.streams + [[]] else t.streams;
      Tree(
        t.handlers[a.h := o.handler],
        if o.on.Some? && sendOk then Append(streams, o.on.value, t.handled) else streams,
        if o.answer then t.fallback else t.fallback + [t.handled],
        t.handled + 1)
  }

  /** Stream `i` takes record `r`. */
  function Append(streams: seq<seq<nat>>, i: nat, r: nat): seq<seq<nat>> {
    if i < |streams| then streams[i := streams[i] + [r]] else streams
  }

  predicate Legal(t: Tree, run: seq<Action>)
    decreases |run|
  {
    run == [] || (Enabled(t, run[0]) && Legal(Next(t, run[0]), run[1..]))
  }

  function After(t: Tree, run: seq<Action>): Tree
    requires Legal(t, run)
    decreases |run|
  {
    if run == [] then t else After(Next(t, run[0]), run[1..])
  }

  /** All records accepted by any stream. */
  function Accepted(streams: seq<seq<nat>>): multiset<nat> {
    if streams == [] then multiset{} else Accepted(streams[..|streams| - 1]) + multiset(streams[|streams| - 1])
  }

  lemma AcceptedOpen(streams: seq<seq<nat>>)
    ensures Accepted(streams + [[]]) == Accepted(streams)
  {
    assert (streams + [[]])[..|streams|] == streams;
  }

  lemma {:induction false} AcceptedAdd(streams: seq<seq<nat>>, i: nat, r: nat)
    requires i < |streams|
    ensures Accepted(Append(streams, i, r)) == Accepted(streams) + multiset{r}
  {
    var n := |streams| - 1;
    var streams' := Append(streams, i, r);
    if i == n {
      assert streams'[..n] == streams[..n];
      assert multiset(streams[i] + [r]) == multiset(streams[i]) + multiset{r};
    } else {
      AcceptedAdd(streams[..n], i, r);
      assert streams'[..n] == Append(streams[..n], i, r);
    }
  }

  /** A non-nil stream means not broken; whoever opened a stream still has it or is broken, so opens no other. */
  ghost predicate HandlerInv(h: Handler, streams: nat) {
    && (h.stream.Some? ==> !h.broken && h.hasClient && h.stream.value < streams)
    && (h.broken ==> h.hasClient)
    && h.opens <= 1 && (h.opens == 1 ==> h.stream.Some? || h.broken)
  }

  /** Every place every record ended up in. */
  function Sinks(t: Tree): multiset<nat> { Accepted(t.streams) + multiset(t.fallback) }

  /** Some of the first `n` records, in the order they were handled. */
  ghost predicate Chronological(records: seq<nat>, n: nat) {
    && (forall i :: 0 <= i < |records| ==> records[i] < n)
    && (forall i, j :: 0 <= i < j < |records| ==> records[i] < records[j])
  }

  ghost predicate InOrder(t: Tree) {
    && Chronological(t.fallback, t.handled)
    && forall i :: 0 <= i < |t.streams| ==> Chronological(t.streams[i], t.handled)
  }

  ghost predicate Inv(t: Tree) {
    && InOrder(t)
    && (forall h :: 0 <= h < |t.handlers| ==> HandlerInv(t.handlers[h], |t.streams|))
    && (forall r: nat :: Sinks(t)[r] == if r < t.handled then 1 else 0)
  }

  /** send answers true exactly where a stream took the record. */
  lemma SendKeeps(h: Handler, streams: nat, openOk: bool, sendOk: bool)
    requires HandlerInv(h, streams)
    ensures var o := Send(h, streams, openOk, sendOk);
      && HandlerInv(o.handler, streams + o.handler.opens - h.opens)
      && h.opens <= o.handler.opens <= h.opens + 1
      && (o.on.Some? ==> o.on.value < streams + o.handler.opens - h.opens)
      && (o.answer <==> o.on.Some? && sendOk)
  {
  }

  /** Handling a record puts it, and nothing else, into one sink. */
  lemma HandleSinks(t: Tree, a: Action)
    requires Inv(t) && Enabled(t, a) && a.Handle?
    ensures Sinks(Next(t, a)) == Sinks(t) + multiset{t.handled}
  {
    hide Send, Accepted, Append, InOrder;
    var h := t.handlers[a.h];
    var o := Send(h, |t.streams|, a.openOk, a.sendOk);
    SendKeeps(h, |t.streams|, a.openOk, a.sendOk);
    AcceptedOpen(t.streams);
    var streams := if o.handler.opens > h.opens then t.streams + [[]] else t.streams;
    if o.answer {
      AcceptedAdd(streams, o.on.value, t.handled);
    } else {
      assert multiset(t.fallback + [t.handled]) == multiset(t.fallback) + multiset{t.handled};
    }
  }

  lemma HandleInOrder(t: Tree, a: Action)
    requires InOrder(t) && Enabled(t, a)
    ensures InOrder(Next(t, a))
  {
    hide Send;
  }

  lemma HandlersKept(t: Tree, a: Action)
    requires Inv(t) && Enabled(t, a)
    ensures var t' := Next(t, a);
      forall h :: 0 <= h < |t'.handlers| ==> HandlerInv(t'.handlers[h], |t'.streams|)
  {
    hide Sinks, InOrder;
    if a.Handle? {
      hide Send;
      SendKeeps(t.handlers[a.h], |t.streams|, a.openOk, a.sendOk);
    }
  }

  lemma NextHandled(t: Tree, a: Action)
    requires Enabled(t, a)
    ensures Next(t, a).handled == t.handled + (if a.Handle? then 1 else 0)
    ensures !a.Handle? ==> Sinks(Next(t, a)) == Sinks(t)
  {
    hide Send, Accepted, Append;
  }

  lemma StepKeeps(t: Tree, a: Action)
    requires Inv(t) && Enabled(t, a)
    ensures Inv(Next(t, a))
  {
    hide Next, HandlerInv, Sinks, InOrder;
    HandlersKept(t, a);
    HandleInOrder(t, a);
    NextHandled(t, a);
    if a.Handle? { HandleSinks(t, a); }
  }

  lemma {:induction false} RunKeeps(t: Tree, run: seq<Action>)
    requires Inv(t) && Legal(t, run)
    ensures Inv(After(t, run))
    decreases |run|
  {
    if run != [] {
      hide Inv;
      StepKeeps(t, run[0]);
      RunKeeps(Next(t, run[0]), run[1..]);
    }
  }

  /**
   * Exactly one sink: whatever the tree and whatever fails, each handled record is once in one stream or
   * once in the fallback.
   */
  lemma ExactlyOneSink(hasClient: bool, run: seq<Action>, r: nat)
    requires Legal(Root(hasClient), run)
    ensures var t := After(Root(hasClient), run);
      Accepted(t.streams)[r] + multiset(t.fallback)[r] == if r < t.handled then 1 else 0
  {
    RunKeeps(Root(hasClient), run);
    assert Sinks(After(Root(hasClient), run))[r] == if r < After(Root(hasClient), run).handled then 1 else 0;
  }

  /** Over every run each handler opens at most one stream, and one with a stream is not broken. */
  lemma OneStreamEach(hasClient: bool, run: seq<Action>, h: nat)
    requires Legal(Root(hasClient), run) && h < |After(Root(hasClient), run).handlers|
    ensures var x := After(Root(hasClient), run).handlers[h];
      x.opens <= 1 && (x.stream.Some? ==> !x.broken) && (x.opens == 1 && x.stream.None? ==> x.broken)
  {
    RunKeeps(Root(hasClient), run);
  }

  /** Over every run each stream and the fallback list their records in the order they were handled. */
  lemma SinksInOrder(hasClient: bool, run: seq<Action>)
    requires Legal(Root(hasClient), run)
    ensures var t := After(Root(hasClient), run);
      && (forall i, j :: 0 <= i < j < |t.fallback| ==> t.fallback[i] < t.fallback[j])
      && (forall k, i, j :: 0 <= k < |t.streams| && 0 <= i < j < |t.streams[k]| ==> t.streams[k][i] < t.streams[k][j])
  {
    RunKeeps(Root(hasClient), run);
    var t := After(Root(hasClient), run);
    assert forall k :: 0 <= k < |t.streams| ==> Chronological(t.streams[k], t.handled);
  }

  /** What a run does to one broken handler and to the fallback. */
  lemma {:induction false} LaterOn(t: Tree, run: seq<Action>)
    requires Legal(t, run)
    ensures var t' := After(t, run);
      && |t.handlers| <= |t'.handlers|
      && (forall h :: 0 <= h < |t.handlers| && t.handlers[h].broken ==> t'.handlers[h] == t.handlers[h])
      && (forall r :: r in t.fallback ==> r in t'.fallback)
      && (forall r :: r in t'.fallback ==> r in t.fallback || r >= t.handled)
    decreases |run|
  {
    if run != [] {
      LaterOn(Next(t, run[0]), run[1..]);
      assert t.handlers[run[0].h].broken ==> Next(t, run[0]).handlers[run[0].h] == t.handlers[run[0].h];
    }
  }

  lemma {:induction false} RunParts(t: Tree, first: seq<Action>, second: seq<Action>)
    requires Legal(t, first + second)
    ensures Legal(t, first) && Legal(After(t, first), second)
    ensures After(After(t, first), second) == After(t, first + second)
    decreases |first|
  {
    hide Enabled, Next;
    if first == [] {
      assert first + second == second;
    } else {
      assert (first + second)[1..] == first[1..] + second;
      RunParts(Next(t, first[0]), first[1..], second);
    }
  }

  lemma RunSplits(t: Tree, run: seq<Action>, k: nat)
    requires Legal(t, run) && k <= |run|
    ensures Legal(t, run[..k]) && Legal(After(t, run[..k]), run[k..])
    ensures After(After(t, run[..k]), run[k..]) == After(t, run)
  {
    hide Legal, After;
    assert run == run[..k] + run[k..];
    RunParts(t, run[..k], run[k..]);
  }

  /** The tree before action `k`. */
  function Before(t: Tree, run: seq<Action>, k: nat): Tree
    requires Legal(t, run) && k < |run|
  {
    RunSplits(t, run, k);
    After(t, run[..k])
  }

  /** No stream can take the record: the handler has none and cannot open one, or its Send fails. */
  predicate NoStreamFor(h: Handler, a: Action)
    requires a.Handle?
  {
    h.broken || !h.hasClient || (h.stream.None? && !a.openOk) || !a.sendOk
  }

  lemma HandledNow(t: Tree, a: Action)
    requires Inv(t) && Enabled(t, a) && a.Handle?
    ensures t.handled in Next(t, a).fallback <==> NoStreamFor(t.handlers[a.h], a)
    ensures Next(t, a).handled == t.handled + 1
    ensures Next(t, a).handlers[a.h].broken <==> t.handlers[a.h].hasClient && NoStreamFor(t.handlers[a.h], a)
  {
    assert Chronological(t.fallback, t.handled) && HandlerInv(t.handlers[a.h], |t.streams|);
  }

  /** Which records the fallback holds in the end: exactly those that no stream could take when they were handled. */
  lemma FallbackExactly(hasClient: bool, run: seq<Action>, k: nat)
    requires Legal(Root(hasClient), run) && k < |run| && run[k].Handle?
    ensures var t := Before(Root(hasClient), run, k);
      && run[k].h < |t.handlers|
      && (t.handled in After(Root(hasClient), run).fallback <==> NoStreamFor(t.handlers[run[k].h], run[k]))
  {
    RunSplits(Root(hasClient), run, k);
    var t, a := Before(Root(hasClient), run, k), run[k];
    RunKeeps(Root(hasClient), run[..k]);
    assert run[k..][1..] == run[k + 1..];
    HandledNow(t, a);
    hide Inv, Next, NoStreamFor;
    LaterOn(Next(t, a), run[k + 1..]);
  }

  /** Action `k` hands handler `h`, which has a client, a record that no stream can take. */
  ghost predicate FailsAt(t: Tree, run: seq<Action>, k: nat, h: nat)
    requires Legal(t, run)
  {
    && k < |run| && run[k].Handle? && run[k].h == h
    && var before := Before(t, run, k);
       h < |before.handlers| && before.handlers[h].hasClient && NoStreamFor(before.handlers[h], run[k])
  }

  lemma AtNext(t: Tree, run: seq<Action>, k: nat)
    requires Legal(t, run) && k < |run|
    ensures Legal(t, run[..k]) && Legal(t, run[..k + 1])
    ensures var before := Before(t, run, k);
      Enabled(before, run[k]) && After(t, run[..k + 1]) == Next(before, run[k])
  {
    hide Enabled, Next;
    RunSplits(t, run, k);
    RunSplits(t, run, k + 1);
    assert run[..k + 1] == run[..k] + [run[k]];
    RunParts(t, run[..k], [run[k]]);
    assert [run[k]][1..] == [];
  }

  lemma NextBroken(t: Tree, a: Action, h: nat)
    requires Inv(t) && Enabled(t, a) && h < |Next(t, a).handlers|
    ensures Next(t, a).handlers[h].broken <==>
      h < |t.handlers| &&
      (t.handlers[h].broken || (a.Handle? && a.h == h && t.handlers[h].hasClient && NoStreamFor(t.handlers[h], a)))
  {
    if a.Handle? && a.h == h {
      HandledNow(t, a);
      assert HandlerInv(t.handlers[h], |t.streams|);
    }
  }

  /** A handler with a client is broken exactly if some record it handled before could be taken by no stream. */
  lemma {:induction false} BrokenExactly(hasClient: bool, run: seq<Action>, n: nat, h: nat)
    requires Legal(Root(hasClient), run) && n <= |run| && Legal(Root(hasClient), run[..n])
    requires h < |After(Root(hasClient), run[..n]).handlers|
    ensures After(Root(hasClient), run[..n]).handlers[h].broken
            <==> exists k :: 0 <= k < n && FailsAt(Root(hasClient), run, k, h)
    decreases n
  {
    if n > 0 {
      hide Enabled, Next, NoStreamFor, Legal, After, Inv, FailsAt;
      AtNext(Root(hasClient), run, n - 1);
      var t, a := Before(Root(hasClient), run, n - 1), run[n - 1];
      RootKept(hasClient, run, n - 1);
      NextBroken(t, a, h);
      FailsNow(Root(hasClient), run, n - 1, h);
      if h < |t.handlers| {
        BrokenExactly(hasClient, run, n - 1, h);
      } else {
        forall k | 0 <= k < n ensures !FailsAt(Root(hasClient), run, k, h) {
          HandlersGrow(Root(hasClient), run, k, n - 1);
          FailsNow(Root(hasClient), run, k, h);
        }
      }
    }
  }

  lemma RootKept(hasClient: bool, run: seq<Action>, k: nat)
    requires Legal(Root(hasClient), run) && k < |run|
    ensures Inv(Before(Root(hasClient), run, k))
  {
    RootInv(hasClient);
    hide Inv, Enabled, Next;
    RunSplits(Root(hasClient), run, k);
    RunKeeps(Root(hasClient), run[..k]);
  }

  lemma RootInv(hasClient: bool)
    ensures Inv(Root(hasClient))
  {
  }

  lemma FailsNow(t: Tree, run: seq<Action>, k: nat, h: nat)
    requires Legal(t, run) && k < |run|
    ensures var before := Before(t, run, k);
      FailsAt(t, run, k, h) <==>
        && h < |before.handlers| && run[k].Handle? && run[k].h == h
        && before.handlers[h].hasClient && NoStreamFor(before.handlers[h], run[k])
  {
  }

  lemma HandlersGrow(t: Tree, run: seq<Action>, k: nat, n: nat)
    requires Legal(t, run) && k <= n < |run|
    ensures |Before(t, run, k).handlers| <= |Before(t, run, n).handlers|
  {
    RunSplits(t, run, n);
    RunSplits(t, run[..n], k);
    assert run[..n][..k] == run[..k];
    LaterOn(After(t, run[..k]), run[..n][k..]);
  }

  /**
   * Broken is absorbing: from where a handler is broken it never changes again, and whatever it handles there
   * is in the fallback in the end.
   */
  lemma BrokenAbsorbs(hasClient: bool, run: seq<Action>, k: nat, h: nat)
    requires Legal(Root(hasClient), run) && k < |run|
    requires var t := Before(Root(hasClient), run, k); h < |t.handlers| && t.handlers[h].broken
    ensures var t, t' := Before(Root(hasClient), run, k), After(Root(hasClient), run);
      && h < |t'.handlers| && t'.handlers[h] == t.handlers[h]
      && (run[k].Handle? && run[k].h == h ==> t.handled in t'.fallback)
  {
    RunSplits(Root(hasClient), run, k);
    LaterOn(Before(Root(hasClient), run, k), run[k..]);
    if run[k].Handle? { FallbackExactly(hasClient, run, k); }
  }

  /** A handler derived from a broken one is not broken: it will try a stream of its own. */
  lemma DerivedForgets(t: Tree, a: Action)
    requires Inv(t) && Enabled(t, a) && !a.Handle? && t.handlers[a.h].broken && t.handlers[a.h].hasClient
    ensures var t' := Next(t, a);
      var child := |t.handlers|;
      && !t'.handlers[child].broken && t'.handlers[child].stream.None?
      && Enabled(t', Handle(child, true, true))
      && Next(t', Handle(child, true, true)).streams == t.streams + [[t.handled]]
  {
    assert [] + [t.handled] == [t.handled];
    var t' := Next(t, a);
    var o := Send(t'.handlers[|t.handlers|], |t.streams|, true, true);
    assert o.on == Some(|t.streams|) && o.handler.opens == 1;
    assert (t.streams + [[]])[|t.streams| := [] + [t.handled]] == t.streams + [[t.handled]];
  }
}
