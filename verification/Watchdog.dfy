/** The push-watchdog goroutine: it numbers its pings across reopened streams. */
module Watchdog {
  import opened Common

  /** One tick's luck: whether Notify would open a stream, and whether Send would succeed. */
  datatype Tick = Tick(openOk: bool, sendOk: bool)

  /** One Send: on which stream (numbered as they were opened), with which sequence number, and its outcome. */
  datatype Ping = Ping(stream: nat, sequence: uint64, ok: bool)

  // ---- The ticks alone ----

  /** Whether a stream is open after the first `i` ticks. */
  predicate Open(ticks: seq<Tick>, i: nat)
    requires i <= |ticks|
  {
    i > 0 && ticks[i - 1].sendOk && (ticks[i - 1].openOk || Open(ticks, i - 1))
  }

  /** Tick `i` needs a stream and fails to open one. */
  predicate Idle(ticks: seq<Tick>, i: nat)
    requires i < |ticks|
  {
    !Open(ticks, i) && !ticks[i].openOk
  }

  /** How many of the first `i` ticks fail to open a stream they need. */
  function FailedOpens(ticks: seq<Tick>, i: nat): (n: nat)
    requires i <= |ticks|
    ensures n <= i
  {
    if i == 0 then 0 else FailedOpens(ticks, i - 1) + (if Idle(ticks, i - 1) then 1 else 0)
  }

  // ---- The pings alone ----

  /** A uint64 counter that has been incremented `n` times. */
  function Wrap(n: nat): uint64 { n % TWO_64 }

  /** Whether a stream is open after these pings. */
  predicate StreamOpen(pings: seq<Ping>) { pings != [] && pings[|pings| - 1].ok }

  /** Pings are numbered 1, 2, 3, ... modulo 2^64 and a new stream begins exactly after a failed ping. */
  predicate Numbered(pings: seq<Ping>) {
    && (forall i :: 0 <= i < |pings| ==> pings[i].sequence == Wrap(i + 1))
    && (pings != [] ==> pings[0].stream == 0)
    && (forall i :: 0 < i < |pings| ==> pings[i].stream == pings[i - 1].stream + (if pings[i - 1].ok then 0 else 1))
  }

  /** How many streams were opened for these pings. */
  function Streams(pings: seq<Ping>): nat { if pings == [] then 0 else pings[|pings| - 1].stream + 1 }

  // ---- How they belong together ----

  /** The place of tick `i`'s ping among all pings. */
  function Place(ticks: seq<Tick>, i: nat): nat
    requires i <= |ticks|
  {
    i - FailedOpens(ticks, i)
  }

  /** Tick `i` failed to open a stream it needs, or its ping is in its place with the tick's outcome. */
  predicate Pinged(ticks: seq<Tick>, i: nat, pings: seq<Ping>)
    requires i < |ticks|
  {
    Idle(ticks, i) || (Place(ticks, i) < |pings| && pings[Place(ticks, i)].ok == ticks[i].sendOk)
  }

  /**
   * The first `n` ticks sent exactly these pings: together with the ticks that failed to open a stream
   * they make up all ticks, and every other tick has its own.
   */
  ghost predicate Sent(ticks: seq<Tick>, n: nat, pings: seq<Ping>)
    requires n <= |ticks|
  {
    && |pings| + FailedOpens(ticks, n) == n
    && forall i: nat :: i < n ==> Pinged(ticks, i, pings)
  }

  lemma NumberedExtends(pings: seq<Ping>, p: Ping)
    requires Numbered(pings) && p.sequence == Wrap(|pings| + 1)
    requires p.stream == if StreamOpen(pings) then pings[|pings| - 1].stream else Streams(pings)
    ensures Numbered(pings + [p])
  {
  }

  lemma WrapNext(n: nat)
    ensures Wrap(Wrap(n) + 1) == Wrap(n + 1)
  {
  }

  lemma PlaceNext(ticks: seq<Tick>, i: nat)
    requires i < |ticks|
    ensures Place(ticks, i + 1) == Place(ticks, i) + (if Idle(ticks, i) then 0 else 1)
  {
    hide Idle;
  }

  /** Sent, tick by tick. */
  lemma SentNext(ticks: seq<Tick>, n: nat, pings: seq<Ping>, pings': seq<Ping>)
    requires n < |ticks| && Sent(ticks, n, pings) && pings <= pings'
    requires if Idle(ticks, n) then pings' == pings
             else |pings'| == |pings| + 1 && pings'[|pings|].ok == ticks[n].sendOk
    ensures Sent(ticks, n + 1, pings')
  {
    hide Idle, FailedOpens;
    PlaceNext(ticks, n);
    forall i: nat | i < n + 1 ensures Pinged(ticks, i, pings') {
      assert i < n ==> Pinged(ticks, i, pings);
    }
  }

  /** What the loop has done before tick `i`. */
  ghost predicate Reached(ticks: seq<Tick>, i: nat, pings: seq<Ping>)
    requires i <= |ticks|
  {
    Numbered(pings) && Sent(ticks, i, pings) && (Open(ticks, i) <==> StreamOpen(pings))
  }

  lemma ReachedStart(ticks: seq<Tick>)
    ensures Reached(ticks, 0, []) && Wrap(0) == 0
  {
  }

  lemma ReachedNext(ticks: seq<Tick>, i: nat, pings: seq<Ping>, p: Ping)
    requires i < |ticks| && Reached(ticks, i, pings)
    requires p.sequence == Wrap(|pings| + 1) && p.ok == ticks[i].sendOk
    requires p.stream == if StreamOpen(pings) then pings[|pings| - 1].stream else Streams(pings)
    ensures Reached(ticks, i + 1, if StreamOpen(pings) || ticks[i].openOk then pings + [p] else pings)
  {
    hide Numbered, Sent, Streams;
    var pings' := if StreamOpen(pings) || ticks[i].openOk then pings + [p] else pings;
    SentNext(ticks, i, pings, pings');
    NumberedExtends(pings, p);
  }

  /** The goroutine's loop over the ticks before its context ends. */
  method Run(ticks: seq<Tick>) returns (pings: seq<Ping>, streams: nat, closesStream: bool)
    ensures Numbered(pings) && Sent(ticks, |ticks|, pings)
    ensures streams == Streams(pings)
    ensures closesStream <==> Open(ticks, |ticks|)
  {
    hide Numbered, Sent, Open, Wrap;
    ReachedStart(ticks);
    var stream: Option<nat>, sequence: uint64 := None, 0;
    pings, streams := [], 0;
    for i := 0 to |ticks|
      invariant Reached(ticks, i, pings)
      invariant sequence == Wrap(|pings|) && streams == Streams(pings)
      invariant stream == if StreamOpen(pings) then Some(pings[|pings| - 1].stream) else None
    {
      hide Reached;
      WrapNext(|pings|);
      ghost var next := Ping(if stream.Some? then stream.value else streams, Wrap(|pings| + 1), ticks[i].sendOk);
      ReachedNext(ticks, i, pings, next);
      if stream == None {
        if !ticks[i].openOk {
          continue;
        }
        stream, streams := Some(streams), streams + 1;
      }
      sequence := Wrap(sequence + 1);
      pings := pings + [Ping(stream.value, sequence, ticks[i].sendOk)];
      if !ticks[i].sendOk {
        stream := None;
      }
    }
    closesStream := stream.Some?;
  }

  // ---- What the numbering means ----

  /** Every ping is the ping of exactly one tick, in the order of the ticks. */
  lemma {:induction false} TickOfPing(ticks: seq<Tick>, n: nat, k: nat) returns (i: nat)
    requires n <= |ticks| && k < Place(ticks, n)
    ensures i < n && !Idle(ticks, i) && Place(ticks, i) == k
    ensures forall j: nat :: j < n && !Idle(ticks, j) && Place(ticks, j) == k ==> j == i
    decreases n
  {
    hide Idle, FailedOpens;
    PlaceNext(ticks, n - 1);
    if Idle(ticks, n - 1) || k < Place(ticks, n - 1) {
      i := TickOfPing(ticks, n - 1, k);
    } else {
      i := n - 1;
      forall j: nat | j < n - 1 && !Idle(ticks, j) ensures Place(ticks, j) < k { PlacesGrow(ticks, j, n - 1); }
    }
  }

  lemma {:induction false} PlacesGrow(ticks: seq<Tick>, i: nat, j: nat)
    requires i < j <= |ticks|
    ensures Place(ticks, i) + (if Idle(ticks, i) then 0 else 1) <= Place(ticks, j)
    decreases j
  {
    hide Idle, FailedOpens;
    PlaceNext(ticks, j - 1);
    if i < j - 1 { PlacesGrow(ticks, i, j - 1); }
  }

  /**
   * Failed opens consume no number: the pings of two ticks are numbered as far apart as there are ticks
   * from one to the other that did not fail to open a stream.
   */
  lemma FailedOpensAreFree(ticks: seq<Tick>, pings: seq<Ping>, i: nat, j: nat)
    requires Numbered(pings) && Sent(ticks, |ticks|, pings)
    requires i < j < |ticks| && !Idle(ticks, i) && !Idle(ticks, j)
    ensures var between := FailedOpens(ticks, j) - FailedOpens(ticks, i);
      && Place(ticks, i) < Place(ticks, j) < |pings|
      && pings[Place(ticks, j)].sequence == Wrap(pings[Place(ticks, i)].sequence + (j - i - between))
  {
    hide Idle, FailedOpens;
    PlacesGrow(ticks, i, j);
    assert Pinged(ticks, j, pings);
    var a, b := Place(ticks, i), Place(ticks, j);
    NumbersApart(pings, a, b);
  }

  lemma NumbersApart(pings: seq<Ping>, a: nat, b: nat)
    requires Numbered(pings) && a < b < |pings|
    ensures pings[b].sequence == Wrap(pings[a].sequence + (b - a))
  {
    WrapTwice(a + 1, b - a);
  }

  lemma WrapTwice(a: nat, d: nat)
    ensures Wrap(Wrap(a) + d) == Wrap(a + d)
  {
  }

  /** No number is skipped, and two pings share one exactly if they lie a multiple of 2^64 apart. */
  lemma NumbersDistinct(pings: seq<Ping>, i: nat, j: nat)
    requires Numbered(pings) && i < j < |pings|
    ensures pings[i].sequence == pings[j].sequence <==> (j - i) % TWO_64 == 0
    ensures j == i + 1 ==> pings[j].sequence == Wrap(pings[i].sequence + 1)
  {
    WrapApart(i + 1, j + 1);
    WrapNext(i + 1);
  }

  lemma WrapApart(a: nat, b: nat)
    requires a <= b
    ensures Wrap(a) == Wrap(b) <==> (b - a) % TWO_64 == 0
  {
    var qa, qb, q := a / TWO_64, b / TWO_64, (b - a) / TWO_64;
    assert b - a == (qb - qa) * TWO_64 + (Wrap(b) - Wrap(a));
  }

  lemma {:induction false} StreamsGrow(pings: seq<Ping>, i: nat, j: nat)
    requires Numbered(pings) && i <= j < |pings|
    ensures pings[i].stream <= pings[j].stream
    ensures pings[i].stream == pings[j].stream
            ==> forall k :: i <= k < j ==> pings[k].ok && pings[k].stream == pings[i].stream
    decreases j
  {
    if i < j { StreamsGrow(pings, i, j - 1); }
  }

  /** A stream carries one contiguous run of pings, of which only the last can have failed. */
  lemma StreamIsOneRun(pings: seq<Ping>, i: nat, k: nat, j: nat)
    requires Numbered(pings) && i <= k <= j < |pings| && pings[i].stream == pings[j].stream
    ensures pings[k].stream == pings[i].stream
    ensures k < j ==> pings[k].ok
  {
    StreamsGrow(pings, i, j);
  }
}
