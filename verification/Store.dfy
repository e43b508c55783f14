/**
 * The namespaced key/value store: storeClient prefixes every key with its namespace and
 * the host keeps all namespaces in one map. Seen through its prefix a client has a plain
 * map of its own, whatever its neighbours do.
 */
module Store {
  import opened Common

  type KeyValues = map<string, Bytes>

  /** The prefix hostClient.Store computes for a namespace. */
  function Prefix(ns: string): string { if ns == "" then "" else ns + "/" }

  function TrimPrefix(s: string, p: string): string { if p <= s then s[|p|..] else s }

  datatype Op = Get(key: string) | Put(key: string, value: Bytes) | Delete(key: string) | List(prefix: string)

  /** A List reply is a set: the host iterates a map, so the order carries nothing. */
  datatype Reply = Value(value: Option<Bytes>) | Done | Keys(keys: set<string>)

  // ---- The plain map a client is promised ----

  function PlainApply(m: KeyValues, op: Op): KeyValues {
    match op
    case Put(k, v) => m[k := v]
    case Delete(k) => m - {k}
    case _ => m
  }

  function PlainReply(m: KeyValues, op: Op): Reply {
    match op
    case Get(k) => Value(if k in m then Some(m[k]) else None)
    case List(p) => Keys(set k | k in m && p <= k)
    case _ => Done
  }

  // ---- What the prefixing client does to the shared map ----

  function HostApply(store: KeyValues, prefix: string, op: Op): KeyValues {
    match op
    case Put(k, v) => store[prefix + k := v]
    case Delete(k) => store - {prefix + k}
    case _ => store
  }

  /** The keys StoreKeys finds. */
  function HostKeys(store: KeyValues, prefix: string): set<string> { set k | k in store && prefix <= k }

  function HostReply(store: KeyValues, prefix: string, op: Op): Reply {
    match op
    case Get(k) => Value(if prefix + k in store then Some(store[prefix + k]) else None)
    case List(p) =>
      var keys := HostKeys(store, prefix + p);
      Keys(if prefix != "" then set k | k in keys :: TrimPrefix(k, prefix) else keys)
    case _ => Done
  }

  // ---- The view ----

  function ViewKeys(store: KeyValues, prefix: string): (keys: set<string>)
    ensures forall k :: k in keys <==> prefix + k in store
  {
    var keys := set key | key in store && prefix <= key :: key[|prefix|..];
    assert forall k :: prefix + k in store ==> (prefix + k)[|prefix|..] == k;
    assert forall key :: prefix <= key ==> prefix + key[|prefix|..] == key;
    keys
  }

  /** What a client with this prefix has stored. */
  function View(store: KeyValues, prefix: string): KeyValues {
    map k | k in ViewKeys(store, prefix) :: store[prefix + k]
  }

  lemma Cancel(p: string, a: string, b: string)
    ensures p + a == p + b <==> a == b
  {
    assert (p + a)[|p|..] == a && (p + b)[|p|..] == b;
  }

  lemma PrefixCancel(p: string, a: string, b: string)
    ensures p + a <= p + b <==> a <= b
  {
    if p + a <= p + b {
      assert forall i :: 0 <= i < |a| ==> (p + a)[|p| + i] == a[i] && (p + b)[|p| + i] == b[i];
    }
    if a <= b {
      assert p + b == p + a + b[|a|..];
    }
  }

  /** A write through the prefix is a write to the view. */
  lemma ApplyRefines(store: KeyValues, prefix: string, op: Op)
    ensures View(HostApply(store, prefix, op), prefix) == PlainApply(View(store, prefix), op)
  {
    var after := HostApply(store, prefix, op);
    forall k ensures
      && (k in View(after, prefix) <==> k in PlainApply(View(store, prefix), op))
      && (k in View(after, prefix) ==> View(after, prefix)[k] == PlainApply(View(store, prefix), op)[k])
    {
      if op.Put? || op.Delete? { Cancel(prefix, k, op.key); }
    }
  }

  /** And leaves every key outside the namespace alone. */
  lemma ApplyFrames(store: KeyValues, prefix: string, op: Op, key: string)
    requires !(prefix <= key)
    ensures key in HostApply(store, prefix, op) <==> key in store
    ensures key in store ==> HostApply(store, prefix, op)[key] == store[key]
  {
    if op.Put? || op.Delete? { assert prefix <= prefix + op.key; }
  }

  /** Replies are those of the view; List yields exactly the view's keys with the prefix, fully trimmed. */
  lemma ReplyRefines(store: KeyValues, prefix: string, op: Op)
    ensures HostReply(store, prefix, op) == PlainReply(View(store, prefix), op)
  {
    if op.List? { ListRefines(store, prefix, op.prefix); }
  }

  lemma ListRefines(store: KeyValues, prefix: string, p: string)
    ensures HostReply(store, prefix, List(p)) == PlainReply(View(store, prefix), List(p))
  {
    var found, promised := HostReply(store, prefix, List(p)).keys, PlainReply(View(store, prefix), List(p)).keys;
    forall k ensures k in found <==> k in promised {
      PrefixCancel(prefix, p, k);
      if k in promised {
        assert prefix + k in HostKeys(store, prefix + p) && TrimPrefix(prefix + k, prefix) == k;
        if prefix == "" { assert prefix + k == k; }
      }
      if k in found {
        var key :| key in HostKeys(store, prefix + p) && (if prefix != "" then TrimPrefix(key, prefix) else key) == k;
        assert prefix <= prefix + p;
        assert key == prefix + k;
      }
    }
  }

  // ---- Overlap of namespaces ----

  ghost predicate Comparable(p: string, q: string) { p <= q || q <= p }

  /** Two clients can reach a common key exactly when one prefix is a prefix of the other. */
  lemma OverlapExactly(p: string, q: string)
    ensures (exists a, b :: p + a == q + b) <==> Comparable(p, q)
  {
    if p <= q { assert p + q[|p|..] == q + ""; }
    if q <= p { assert p + "" == q + p[|q|..]; }
    forall a, b | p + a == q + b ensures Comparable(p, q) {
      if |p| <= |q| { assert q == (q + b)[..|q|] && p == (p + a)[..|p|] == q[..|p|]; }
      else { assert p == (p + a)[..|p|] && q == (q + b)[..|q|] == p[..|q|]; }
    }
  }

  /** For namespaces that means: the root, the same one, or one nested in the other by a slash. */
  lemma NamespacesOverlap(ns: string, other: string)
    ensures Comparable(Prefix(ns), Prefix(other)) <==>
            ns == "" || other == "" || ns == other || ns + "/" <= other || other + "/" <= ns
  {
    NestedOrSame(ns, other);
    NestedOrSame(other, ns);
  }

  lemma NestedOrSame(ns: string, other: string)
    ensures ns != "" && other != "" ==> (Prefix(ns) <= Prefix(other) <==> ns == other || ns + "/" <= other)
  {
    var p, q := ns + "/", other + "/";
    if p <= q {
      if |p| <= |other| {
        assert p == q[..|p|] == other[..|p|];
      } else {
        assert ns == p[..|ns|] && other == q[..|other|];
      }
    }
    if p <= other { assert q == p + (other[|p|..] + "/"); }
  }

  lemma NestedHasSlash(ns: string, other: string)
    ensures ns + "/" <= other ==> '/' in other
  {
    if ns + "/" <= other { assert other[|ns|] == (ns + "/")[|ns|]; }
  }

  /** Distinct, non-empty, slash-free namespaces never overlap. */
  lemma SlashFreeApart(ns: string, other: string)
    requires ns != "" && other != "" && '/' !in ns && '/' !in other && ns != other
    ensures !Comparable(Prefix(ns), Prefix(other))
  {
    NamespacesOverlap(ns, other);
    NestedHasSlash(ns, other);
    NestedHasSlash(other, ns);
  }

  /**
   * Where a namespace's keys lie: what its client puts, gets and deletes under `k` is what a client of the
   * root puts, gets and deletes under the namespace, a slash and `k`; and the root's keys are the host's own.
   */
  lemma RootSeesNamespaces(store: KeyValues, ns: string, k: string, value: Bytes)
    requires ns != ""
    ensures var full := ns + "/" + k;
      && HostApply(store, Prefix(ns), Put(k, value)) == HostApply(store, Prefix(""), Put(full, value))
                                                     == store[full := value]
      && HostApply(store, Prefix(ns), Delete(k)) == HostApply(store, Prefix(""), Delete(full)) == store - {full}
      && HostReply(store, Prefix(ns), Get(k)) == HostReply(store, Prefix(""), Get(full))
                                              == Value(if full in store then Some(store[full]) else None)
  {
    assert Prefix("") + (ns + "/" + k) == ns + "/" + k;
    assert Prefix(ns) + k == ns + "/" + k;
  }

  // ---- Many clients over one map, in any order ----

  datatype Request = Request(ns: string, op: Op)

  function HostRun(store: KeyValues, reqs: seq<Request>): KeyValues
    decreases |reqs|
  {
    if reqs == [] then store else HostRun(HostApply(store, Prefix(reqs[0].ns), reqs[0].op), reqs[1..])
  }

  /** The replies namespace `ns` gets, in order. */
  function HostReplies(store: KeyValues, reqs: seq<Request>, ns: string): seq<Reply>
    decreases |reqs|
  {
    if reqs == [] then []
    else
      var p := Prefix(reqs[0].ns);
      var rest := HostReplies(HostApply(store, p, reqs[0].op), reqs[1..], ns);
      if reqs[0].ns == ns then [HostReply(store, p, reqs[0].op)] + rest else rest
  }

  /** The requests of one namespace. */
  function OpsOf(reqs: seq<Request>, ns: string): seq<Op>
    decreases |reqs|
  {
    if reqs == [] then []
    else if reqs[0].ns == ns then [reqs[0].op] + OpsOf(reqs[1..], ns) else OpsOf(reqs[1..], ns)
  }

  function PlainRun(m: KeyValues, ops: seq<Op>): KeyValues
    decreases |ops|
  {
    if ops == [] then m else PlainRun(PlainApply(m, ops[0]), ops[1..])
  }

  function PlainReplies(m: KeyValues, ops: seq<Op>): seq<Reply>
    decreases |ops|
  {
    if ops == [] then [] else [PlainReply(m, ops[0])] + PlainReplies(PlainApply(m, ops[0]), ops[1..])
  }

  lemma KeysMeet(p: string, q: string, k: string)
    ensures q <= p + k ==> Comparable(p, q)
  {
    if q <= p + k { assert p + k == q + (p + k)[|q|..]; }
    OverlapExactly(p, q);
  }

  /** A neighbour whose prefix is apart changes nothing of the view. */
  lemma NeighbourHarmless(store: KeyValues, prefix: string, other: string, op: Op)
    requires !Comparable(prefix, other)
    ensures View(HostApply(store, other, op), prefix) == View(store, prefix)
  {
    var after := HostApply(store, other, op);
    forall k ensures
      && (prefix + k in after <==> prefix + k in store)
      && (prefix + k in store ==> after[prefix + k] == store[prefix + k])
    {
      KeysMeet(prefix, other, k);
      ApplyFrames(store, other, op, prefix + k);
    }
  }

  /**
   * Refinement and isolation in one: in every interleaving with neighbours whose prefixes are apart
   * from its own, a namespace gets exactly the replies, and ends with exactly the contents, that its
   * own requests produce on a plain map.
   */
  lemma {:induction false} EveryInterleavingIsPrivate(store: KeyValues, reqs: seq<Request>, ns: string)
    requires forall r :: r in reqs && r.ns != ns ==> !Comparable(Prefix(ns), Prefix(r.ns))
    ensures HostReplies(store, reqs, ns) == PlainReplies(View(store, Prefix(ns)), OpsOf(reqs, ns))
    ensures View(HostRun(store, reqs), Prefix(ns)) == PlainRun(View(store, Prefix(ns)), OpsOf(reqs, ns))
    decreases |reqs|
  {
    if reqs != [] {
      var r := reqs[0];
      var after := HostApply(store, Prefix(r.ns), r.op);
      assert r in reqs && forall x :: x in reqs[1..] ==> x in reqs;
      EveryInterleavingIsPrivate(after, reqs[1..], ns);
      if r.ns == ns {
        ApplyRefines(store, Prefix(ns), r.op);
        ReplyRefines(store, Prefix(ns), r.op);
        assert OpsOf(reqs, ns)[1..] == OpsOf(reqs[1..], ns);
      } else {
        NeighbourHarmless(store, Prefix(ns), Prefix(r.ns), r.op);
      }
    }
  }

  /** In particular for namespaces that are distinct, non-empty and slash-free. */
  lemma SlashFreeNamespacesArePrivate(store: KeyValues, reqs: seq<Request>, ns: string)
    requires ns != "" && '/' !in ns
    requires forall r :: r in reqs ==> r.ns != "" && '/' !in r.ns
    ensures HostReplies(store, reqs, ns) == PlainReplies(View(store, Prefix(ns)), OpsOf(reqs, ns))
    ensures View(HostRun(store, reqs), Prefix(ns)) == PlainRun(View(store, Prefix(ns)), OpsOf(reqs, ns))
  {
    forall r | r in reqs && r.ns != ns ensures !Comparable(Prefix(ns), Prefix(r.ns)) {
      SlashFreeApart(ns, r.ns);
    }
    EveryInterleavingIsPrivate(store, reqs, ns);
  }

  /** Keys outside a namespace survive any number of its requests. */
  lemma {:induction false} OutsideUntouched(store: KeyValues, reqs: seq<Request>, ns: string, key: string)
    requires forall r :: r in reqs ==> r.ns == ns
    requires !(Prefix(ns) <= key)
    ensures key in HostRun(store, reqs) <==> key in store
    ensures key in store ==> HostRun(store, reqs)[key] == store[key]
    decreases |reqs|
  {
    if reqs != [] {
      assert reqs[0] in reqs && forall x :: x in reqs[1..] ==> x in reqs;
      ApplyFrames(store, Prefix(ns), reqs[0].op, key);
      OutsideUntouched(HostApply(store, Prefix(ns), reqs[0].op), reqs[1..], ns, key);
    }
  }
}
