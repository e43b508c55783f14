/** The in-memory host state and the store client that works on it, in place. */
module HostServices {
  import opened Common
  import Store
  import EventBus
  import PolicyWatch

  datatype Subscription = Subscription(topics: seq<string>, ch: seq<EventBus.Event>)

  predicate NoDuplicates<T(==)>(s: seq<T>) {
    forall i, j :: 0 <= i < j < |s| ==> s[i] != s[j]
  }

  /** What a non-blocking send leaves in one subscription's channel. */
  function Offered(sub: Subscription, ev: EventBus.Event): Subscription {
    if EventBus.Matches(sub.topics, ev.topic) && |sub.ch| < EventBus.CAPACITY then sub.(ch := sub.ch + [ev]) else sub
  }

  /** The part of the host that the policy calls work on; a token is true when it waits in its channel. */
  datatype PolicyPart = PolicyPart(revision: uint64, data: Bytes, tokens: seq<bool>)

  function AfterSetPolicy(p: PolicyPart, data: Bytes): PolicyPart {
    PolicyPart((p.revision + 1) % TWO_64, data, seq(|p.tokens|, _ => true))
  }

  /** The part that the event calls work on. */
  datatype BusPart = BusPart(events: seq<EventBus.Event>, subscribers: seq<Subscription>)

  function AfterPublish(b: BusPart, ev: EventBus.Event): BusPart {
    BusPart(b.events + [ev],
            seq(|b.subscribers|, i requires 0 <= i < |b.subscribers| => Offered(b.subscribers[i], ev)))
  }

  class HostData {
    var store: Store.KeyValues
    var policyRevision: uint64
    var policyData: Bytes
    var policyWatchers: seq<bool>          // the one-slot channels: true when a token waits
    var events: seq<EventBus.Event>
    var subscribers: seq<Subscription>

    constructor ()
      ensures store == map[] && policyRevision == 0 && policyData == [] && policyWatchers == []
      ensures events == [] && subscribers == []
    {
      store, policyRevision, policyData, policyWatchers := map[], 0, [], [];
      events, subscribers := [], [];
    }

    method StoreGet(key: string) returns (value: Bytes, found: bool)
      ensures found <==> key in store
      ensures value == if key in store then store[key] else []
    {
      found := key in store;
      value := if found then store[key] else [];
    }

    method StorePut(key: string, value: Bytes)
      modifies this`store
      ensures store == old(store)[key := value]
    {
      store := store[key := value];
    }

    method StoreDelete(key: string)
      modifies this`store
      ensures store == old(store) - {key}
    {
      store := store - {key};
    }

    /** The keys come in the map's own, arbitrary order. */
    method StoreKeys(prefix: string) returns (keys: seq<string>)
      ensures NoDuplicates(keys)
      ensures (set k | k in keys) == Store.HostKeys(store, prefix)
    {
      keys := [];
      var todo := store.Keys;
      while todo != {}
        invariant todo <= store.Keys
        invariant NoDuplicates(keys)
        invariant forall k :: k in keys <==> k in store && prefix <= k && k !in todo
        decreases todo
      {
        var k :| k in todo;
        if |k| >= |prefix| && k[..|prefix|] == prefix {
          keys := keys + [k];
        }
        todo := todo - {k};
      }
    }

    ghost function PolicyNow(): PolicyPart
      reads this
    {
      PolicyPart(policyRevision, policyData, policyWatchers)
    }

    method SetPolicy(data: Bytes)
      modifies this`policyRevision, this`policyData, this`policyWatchers
      ensures PolicyNow() == AfterSetPolicy(old(PolicyNow()), data)
    {
      policyRevision := (policyRevision + 1) % TWO_64;
      policyData := data;
      for i := 0 to |policyWatchers|
        invariant policyRevision == (old(policyRevision) + 1) % TWO_64 && policyData == data
        invariant |policyWatchers| == |old(policyWatchers)|
        invariant forall j :: 0 <= j < i ==> policyWatchers[j]
      {
        if !policyWatchers[i] {
          policyWatchers := policyWatchers[i := true];
        }
      }
    }

    method Policy() returns (revision: uint64, data: Bytes)
      ensures PolicyNow() == PolicyPart(revision, data, policyWatchers)
    {
      revision, data := policyRevision, policyData;
    }

    method AddPolicyWatcher() returns (w: nat)
      modifies this`policyWatchers
      ensures w == |old(policyWatchers)|
      ensures PolicyNow() == old(PolicyNow()).(tokens := old(policyWatchers) + [false])
    {
      w := |policyWatchers|;
      policyWatchers := policyWatchers + [false];
    }

    ghost function BusNow(): BusPart
      reads this
    {
      BusPart(events, subscribers)
    }

    method Subscribe(topics: seq<string>) returns (i: nat)
      modifies this`subscribers
      ensures i == |old(subscribers)| && subscribers == old(subscribers) + [Subscription(topics, [])]
    {
      i := |subscribers|;
      subscribers := subscribers + [Subscription(topics, [])];
    }

    /** Records the event and offers it to every subscriber: matching ones with room gain exactly it, at the end. */
    method Publish(topic: string, data: Bytes)
      modifies this`events, this`subscribers
      ensures BusNow() == AfterPublish(old(BusNow()), EventBus.Event(topic, data))
    {
      var ev := EventBus.Event(topic, data);
      events := events + [ev];
      var n := |subscribers|;
      for i := 0 to n
        invariant events == old(events) + [ev] && |subscribers| == n == |old(subscribers)|
        invariant forall j :: 0 <= j < i ==> subscribers[j] == Offered(old(subscribers)[j], ev)
        invariant forall j :: i <= j < n ==> subscribers[j] == old(subscribers)[j]
      {
        var matches := EventBus.TopicMatches(subscribers[i].topics, topic);
        if matches && |subscribers[i].ch| < EventBus.CAPACITY {
          subscribers := subscribers[i := subscribers[i].(ch := subscribers[i].ch + [ev])];
        }
      }
    }
  }

  // ---- The calls are runs of the machines that interleave them ----

  function PolicyOf(s: PolicyWatch.State): PolicyPart {
    PolicyPart(s.revision, s.data, seq(|s.watchers|, i requires 0 <= i < |s.watchers| => s.watchers[i].token))
  }

  /** From every state some run of the policy machine does what SetPolicy does to the host. */
  lemma SetPolicyIsRun(s: PolicyWatch.State, data: Bytes) returns (run: seq<PolicyWatch.Action>)
    ensures PolicyWatch.Legal(s, run) && PolicyOf(PolicyWatch.After(s, run)) == AfterSetPolicy(PolicyOf(s), data)
  {
    run := PolicyWatch.SetPolicyAlone(s, data);
    hide PolicyWatch.Legal, PolicyWatch.After;
    assert PolicyOf(PolicyWatch.After(s, run)).tokens == AfterSetPolicy(PolicyOf(s), data).tokens;
  }

  /** The machine's other steps on the host: registering as AddPolicyWatcher does, reading what Policy returns. */
  lemma WatchIsStep(s: PolicyWatch.State)
    ensures var tokens := PolicyOf(s).tokens;
      && PolicyOf(PolicyWatch.Next(s, PolicyWatch.AddWatcher)) == PolicyOf(s).(tokens := tokens + [false])
      && PolicyOf(s) == PolicyPart(PolicyWatch.Current(s).revision, PolicyWatch.Current(s).data, tokens)
  {
    assert PolicyOf(PolicyWatch.Next(s, PolicyWatch.AddWatcher)).tokens == PolicyOf(s).tokens + [false];
  }

  /** Every queued event is one of the record. */
  ghost predicate Recorded(s: EventBus.State) {
    forall i, j :: 0 <= i < |s.subs| && 0 <= j < |s.subs[i].queue| ==> s.subs[i].queue[j] < |s.events|
  }

  lemma QueuesRecorded(s: EventBus.State)
    requires EventBus.Inv(s)
    ensures Recorded(s)
  {
    forall i, j | 0 <= i < |s.subs| && 0 <= j < |s.subs[i].queue| ensures s.subs[i].queue[j] < |s.events| {
      assert EventBus.SubInv(s, i);
      EventBus.StreamKnown(s, i);
      assert s.subs[i].queue[j] in EventBus.Stream(s.subs[i]);
    }
  }

  ghost function Named(queue: seq<nat>, events: seq<EventBus.Event>): seq<EventBus.Event>
    requires forall j :: 0 <= j < |queue| ==> queue[j] < |events|
  {
    seq(|queue|, j requires 0 <= j < |queue| => events[queue[j]])
  }

  ghost function SubscriptionOf(x: EventBus.Subscriber, events: seq<EventBus.Event>): Subscription
    requires forall j :: 0 <= j < |x.queue| ==> x.queue[j] < |events|
  {
    Subscription(x.topics, Named(x.queue, events))
  }

  ghost function BusOf(s: EventBus.State): BusPart
    requires Recorded(s)
  {
    BusPart(s.events, seq(|s.subs|, i requires 0 <= i < |s.subs| => SubscriptionOf(s.subs[i], s.events)))
  }

  lemma OfferIsOffered(x: EventBus.Subscriber, events: seq<EventBus.Event>, ev: EventBus.Event)
    requires forall j :: 0 <= j < |x.queue| ==> x.queue[j] < |events|
    ensures var x' := EventBus.Offer(x, |events|, ev.topic);
      && (forall j :: 0 <= j < |x'.queue| ==> x'.queue[j] < |events + [ev]|)
      && SubscriptionOf(x', events + [ev]) == Offered(SubscriptionOf(x, events), ev)
  {
    hide EventBus.Matches;
    var x' := EventBus.Offer(x, |events|, ev.topic);
    assert SubscriptionOf(x', events + [ev]).ch == Offered(SubscriptionOf(x, events), ev).ch;
  }

  /** From every state in reach some run of the event machine does what Publish does to the host. */
  lemma PublishIsRun(s: EventBus.State, topic: string, data: Bytes) returns (run: seq<EventBus.Action>)
    requires EventBus.Inv(s)
    ensures EventBus.Legal(s, run) && Recorded(s) && Recorded(EventBus.After(s, run))
    ensures BusOf(EventBus.After(s, run)) == AfterPublish(BusOf(s), EventBus.Event(topic, data))
  {
    QueuesRecorded(s);
    run := EventBus.PublishAlone(s, topic, data);
    EventBus.RunKeeps(s, run);
    var s' := EventBus.After(s, run);
    QueuesRecorded(s');
    hide EventBus.Inv, EventBus.Legal, EventBus.After, EventBus.Offer;
    var ev := EventBus.Event(topic, data);
    forall i | 0 <= i < |s.subs|
      ensures SubscriptionOf(s'.subs[i], s'.events) == Offered(SubscriptionOf(s.subs[i], s.events), ev)
    {
      OfferIsOffered(s.subs[i], s.events, ev);
    }
    assert BusOf(s').subscribers == AfterPublish(BusOf(s), ev).subscribers;
  }

  /** storeClient: every operation, seen through the client's own view, is that of a plain map. */
  class StoreClient {
    const host: HostData
    const prefix: string

    constructor (host: HostData, ns: string)
      ensures this.host == host && prefix == Store.Prefix(ns)
    {
      this.host := host;
      prefix := if ns == "" then "" else ns + "/";
    }

    ghost function Contents(): Store.KeyValues
      reads host
    {
      Store.View(host.store, prefix)
    }

    method Get(key: string) returns (value: Bytes, found: bool)
      ensures Store.PlainReply(Contents(), Store.Get(key)) == Store.Value(if found then Some(value) else None)
      ensures !found ==> value == []
    {
      value, found := host.StoreGet(prefix + key);
      Store.ReplyRefines(host.store, prefix, Store.Get(key));
    }

    method Put(key: string, value: Bytes)
      modifies host`store
      ensures Contents() == old(Contents())[key := value]
      ensures forall k :: !(prefix <= k) ==>
                (k in host.store <==> k in old(host.store)) && (k in host.store ==> host.store[k] == old(host.store)[k])
    {
      ghost var before := host.store;
      host.StorePut(prefix + key, value);
      Store.ApplyRefines(before, prefix, Store.Put(key, value));
      forall k | !(prefix <= k) ensures k in host.store <==> k in before {
        Store.ApplyFrames(before, prefix, Store.Put(key, value), k);
      }
    }

    method Delete(key: string)
      modifies host`store
      ensures Contents() == old(Contents()) - {key}
      ensures forall k :: !(prefix <= k) ==>
                (k in host.store <==> k in old(host.store)) && (k in host.store ==> host.store[k] == old(host.store)[k])
    {
      ghost var before := host.store;
      host.StoreDelete(prefix + key);
      Store.ApplyRefines(before, prefix, Store.Delete(key));
      forall k | !(prefix <= k) ensures k in host.store <==> k in before {
        Store.ApplyFrames(before, prefix, Store.Delete(key), k);
      }
    }

    /** Precisely the view's keys that start with `p`, each once. */
    method List(p: string) returns (keys: seq<string>)
      ensures NoDuplicates(keys)
      ensures forall k :: k in keys <==> k in Contents() && p <= k
    {
      keys := host.StoreKeys(prefix + p);
      ghost var found := keys;
      forall i | 0 <= i < |found| ensures prefix <= found[i] && found[i] == prefix + found[i][|prefix|..] {
        assert found[i] in (set k | k in found);
        assert found[i] in Store.HostKeys(host.store, prefix + p);
        assert prefix <= prefix + p <= found[i];
      }
      if prefix != "" {
        var trimmed := [];
        for i := 0 to |keys|
          invariant |trimmed| == i && keys == found
          invariant forall j :: 0 <= j < i ==> trimmed[j] == found[j][|prefix|..]
        {
          trimmed := trimmed + [Store.TrimPrefix(keys[i], prefix)];
        }
        keys := trimmed;
      }
      assert forall i :: 0 <= i < |keys| ==> keys[i] == found[i][|prefix|..];
      Store.ListRefines(host.store, prefix, p);
      forall k ensures k in keys <==> k in Contents() && p <= k { Listed(found, keys, k, p); }
    }

    lemma Listed(found: seq<string>, keys: seq<string>, k: string, p: string)
      requires (set x | x in found) == Store.HostKeys(host.store, prefix + p)
      requires |keys| == |found| && forall i :: 0 <= i < |keys| ==> found[i] == prefix + keys[i]
      ensures k in keys <==> k in Contents() && p <= k
    {
      Store.PrefixCancel(prefix, p, k);
      assert k in Contents() && p <= k <==> prefix + k in Store.HostKeys(host.store, prefix + p);
      assert prefix + k in (set x | x in found) <==> prefix + k in found;
      if prefix + k in found {
        var i :| 0 <= i < |found| && found[i] == prefix + k;
        Store.Cancel(prefix, keys[i], k);
      }
    }
  }
}
