# A verified model of the Weave platform SDK

This project models the parts of the Weave module SDK that hold state, concurrency or
arithmetic, and proves what they promise. It is written in Dafny 4.11; `dafny verify
dfyconfig.toml` checks all of it.

**The module runtime.** `Runtime` is a step machine: the Init, Start, Stop and Shutdown RPCs
under `moduleServer.mu`, the hostClient's own mutex, cancel function and WaitGroup, the job and
watchdog goroutines, and serve's exit path. Everything the runtime does not decide (which RPC
gets the lock, what a callback, dial or select answers, which goroutine moves) is part of an
action, so a run is any sequence of enabled actions. Each step records events.
`RuntimeTrace` says which event may follow which past, without mentioning the machine;
`RuntimeInvariant` and `RuntimeRuns` prove that every run stays in that language,
`TraceLanguage` reads it out as statements about events, and `RuntimeTheorems`,
`RuntimeExit`, `RuntimeAnswers` and `RuntimeJobs` state the results for runs.
`ModuleServerObject` has the RPC methods in the source's own order of statements, as a class
whose ghost run ties each statement to a machine step.

**The in-memory host services.** `PolicyWatch` is the policy notify protocol (install under the
lock, wake-ups outside it, one-slot channels, read-send-park watchers, the client's forwarding
goroutine). `EventBus` is the fan-out bus. Both are step machines over every interleaving.
`Store` is the namespaced key/value store, and `HostServices` holds the HostData object and
the store client as classes that update in place.

**The handshake.** `Text` and `Decimal` are the string functions it rests on, `Handshake` the
line and the window, `Negotiation` the exchange between core and module.

**Loops and latches.** `Watchdog` (ping numbering), `LogHandler` (log stream with fallback),
`Retry` (backoff) and `Decimal.Itoa` (the 20-byte digit buffer).

Assumed primitives: a mutex critical section is atomic, GracefulStop returns only when no RPC is
in flight and admits no new one, WaitGroup.Wait returns only at zero, a gRPC stream delivers in
order, and one whose Send fails has not taken the message.

Where the code and its comments differ, the model follows the code:

- A failed Module.Init leaves the server Created and may be retried; "exactly once" is at most one success.
- Declare is refused once the jobs were started, not as soon as Init has returned.
- A job's select may still take the timer after cancellation, so a run may begin after `cancel()`; it ends before `Wait` returns.
- The exit path after a signal or a lost core stops the jobs but does not call Module.Stop.
- Derived log handlers copy the stream but not the broken latch.
- The jitter is drawn from [0, computed), not (0, computed]; a zero delay is possible.
- A topic's stamp identifies its publisher only among ids of which none continues another after a dot; the ids are not restricted.
- The scanner ends the handshake line at the first newline, so an address with a newline is cut short and core may dial what is left of it.
- `Max` does not cap attempt 0 when Initial exceeds it.

## Model

| member | source | states |
|---|---|---|
| `RuntimeRuns.StepKeeps` | modulesdk/lifecycle.go:55-188 | any enabled step of any RPC, goroutine or the exit path, from a state satisfying the invariant, records only events the past allows and restores the invariant |
| `RuntimeRuns.EveryRunIsOrdered` | modulesdk/lifecycle.go:55-188 | for every order of RPCs, callback outcomes and interleavings the recorded trace lies in the trace language, and the invariant tying state to trace holds at its end |
| `RuntimeTheorems.LifecycleLanguage` | modulesdk/lifecycle.go:55-165 | Init, Start and Stop each succeed at most once; Start is attempted only after a successful Init and Stop only after a successful Start; nothing is initialised, started, stopped or launched after the module is stopped |
| `RuntimeTheorems.JobQuiescence` | modulesdk/hostclient.go:375-474 | runs begin only after Module.Start succeeded and never overlap for one job; when Module.Stop is called, and when any Stop or Shutdown returns, successfully or not, every goroutine has ended and none starts, runs or ends afterwards; when Module.Stop is called every declared job has completed a run; at a clean exit, with or without Module.Stop, every goroutine has ended and, if Start ever answered OK, every declared job has completed a run |
| `RuntimeTheorems.StartLaunchesAll` | modulesdk/hostclient.go:375-395 | in every run, when Start answers OK there have been exactly as many launches as declared jobs, plus one if Init asked for a watchdog cadence, numbered from 0 on |
| `RuntimeTheorems.ConnectionConservation` | modulesdk/lifecycle.go:78-89 | connections opened minus closed is 1 exactly while a host is retained and the process has not exited cleanly; Inited and Started imply a host; hostClients of failed attempts are closed and never had jobs, an interval or goroutines; a clean exit leaves nothing open and the WaitGroup at zero |
| `RuntimeTheorems.InitVerdictExactly` | modulesdk/lifecycle.go:58-82 | Init goes to the module exactly from Created, with the module's own id and protocol 1, a configuration accepted and a dial that succeeds; which code answers each other request |
| `RuntimeTheorems.InitAnswers` | modulesdk/hostclient.go:334-354 | Init answers with exactly the surfaces declared on the connection of the successful attempt: a surface is carried if and only if an accepted declaration of it on that connection precedes the answer; Declare is accepted before and refused after that connection's jobs were started, and only then |
| `RuntimeTheorems.DeclareAfterAnswer` | modulesdk/hostclient.go:337-337 | a run in which Declare is accepted after Init has answered, so that no answer carries its surfaces |
| `RuntimeTheorems.WaitGroupCounts` | modulesdk/hostclient.go:397-435 | in every reachable state the WaitGroup equals the number of live goroutines, hostClient.mu is held across steps only by startJobs, a posted or pending shutdown token implies Stopped, and serve's own stopJobs never runs beside an RPC |
| `RuntimeTheorems.NoDeadlock` | modulesdk/hostclient.go:465-474 | in every reachable state in which someone holds or waits for the lock or serve is exiting, some step of the runtime is enabled; while stopJobs waits, it is a step of a live goroutine |
| `RuntimeTheorems.GoroutineStepsFinish` | modulesdk/hostclient.go:431-461 | every goroutine step but a timer strictly lowers a measure of what the goroutines have left to do, and leaves whoever waits where it is |
| `RuntimeTheorems.WeightZero` | modulesdk/hostclient.go:465-474 | that measure is zero exactly when every goroutine has ended, which is exactly when none is live |
| `RuntimeTheorems.StopCanComplete` | modulesdk/lifecycle.go:147-165 | from every reachable state in which Stop or the exit path waits, a bounded schedule of goroutine steps alone empties the WaitGroup |
| `RuntimeTheorems.EveryScheduleEnds` | modulesdk/hostclient.go:431-461 | every legal run of goroutine steps, timers aside, is at most as long as the measure of its start, and leaves whoever waits where it is |
| `RuntimeTheorems.EveryScheduleFinishes` | modulesdk/hostclient.go:465-474 | from every reachable wait, each such run that can go no further has emptied the WaitGroup, whatever the order |
| `RuntimeTheorems.HolderMoves` | modulesdk/lifecycle.go:125-165 | except while waiting for jobs, the holder of the lock, the next waiter, a pending token or the exit path can take its next step |
| `RuntimeExit.WakeIsFinal` | modulesdk/serve.go:120-135 | once a shutdown request, a lost core or a signal has woken serve it never selects again, whatever follows |
| `RuntimeExit.EveryExitCompletes` | modulesdk/serve.go:129-135 | from every reachable state past the select, each run of runtime and goroutine steps is bounded by a number known at its start plus six for each job Module.Jobs returns on the way, and can go no further exactly when the process has exited cleanly |
| `RuntimeExit.ExitCanComplete` | modulesdk/serve.go:129-135 | a bounded schedule of such steps to the clean exit exists from every such state |
| `RuntimeExit.WakesExactly` | modulesdk/serve.go:120-126 | while serve selects, it can wake for a shutdown exactly if some Shutdown RPC answered OK, and for a lost core exactly if the connection was lost |
| `RuntimeExit.LostOnlyAfterInit` | modulesdk/lifecycle.go:104-113 | a lost core can be reported only after Module.Init has succeeded on the retained connection |
| `RuntimeAnswers.EveryRpcAnswered` | modulesdk/lifecycle.go:55-188 | over every run each admitted RPC is queued, in flight or answered, exactly once and as the kind of RPC it is; a Shutdown in flight includes one whose token is still to be posted; after a clean exit all are answered |
| `RuntimeJobs.LockedOut` | modulesdk/hostclient.go:375-395 | in every reachable state in which startJobs launches, no step but its own, a goroutine's, a stale connection's Declare or the environment's is enabled: launching is atomic to Declare, Stop and the exit |
| `RuntimeJobs.CancelledOnlyByStop` | modulesdk/hostclient.go:452-474 | in every run before Stop or the exit path cancels, no waiting job or watchdog is told to end |
| `RuntimeJobs.JobsRepeat` | modulesdk/hostclient.go:431-461 | a waiting job can complete any number of further runs, each begun by its timer, whatever else stands still |
| `TraceLanguage.SuccessOnce` | modulesdk/lifecycle.go:58-89 | in any trace of the language no two Inits, Starts or Stops succeed |
| `TraceLanguage.CallsInOrder` | modulesdk/lifecycle.go:125-163 | in any trace of the language a Start call has a successful Init before it and a Stop call a successful Start |
| `TraceLanguage.StoppedAbsorbs` | modulesdk/lifecycle.go:147-153 | in any trace of the language nothing is initialised, started, stopped or launched after Stopped |
| `TraceLanguage.QuietAfterStop` | modulesdk/lifecycle.go:159-164 | in any trace of the language no goroutine starts, runs or ends after Module.Stop was called or a Stop or Shutdown answered |
| `TraceLanguage.NothingLiveAtStop` | modulesdk/hostclient.go:465-474 | at Module.Stop and at every Stop or Shutdown answer all launched goroutines have ended and begun runs equal ended runs |
| `TraceLanguage.EveryJobRanAtStop` | modulesdk/hostclient.go:431-436 | when Module.Stop is called each declared job has an ended run |
| `TraceLanguage.EveryJobRanAtExit` | modulesdk/serve.go:130-135 | in any trace of the language, at a clean exit all launched goroutines have ended, begun runs equal ended runs, and each declared job has an ended run if anything was launched |
| `TraceLanguage.RunsAfterStart` | modulesdk/lifecycle.go:131-137 | a run begins only after a successful Start, in a launched and unfinished goroutine with no open run |
| `TraceLanguage.EveryoneLaunched` | modulesdk/hostclient.go:375-395 | in any trace of the language the launches before Start answers OK number the declared jobs plus one for a positive interval, each goroutine once |
| `TraceLanguage.StartedLaunched` | modulesdk/hostclient.go:387-389 | in any trace of the language each declared job has been launched once Start has answered OK |
| `TraceLanguage.ConnectionsBalance` | modulesdk/serve.go:130-135 | a dial finds all earlier connections closed, the exit path closes the one open connection, and a clean exit finds none open |
| `TraceLanguage.SurfacesAnswered` | modulesdk/hostclient.go:344-354 | the surfaces of an Init answer are the concatenation of those declared on that attempt's connection |
| `TraceLanguage.SurfaceDeclared` | modulesdk/hostclient.go:344-354 | a surface is among those of a connection exactly if some accepted declaration on it had it |
| `TraceLanguage.DeclareRefusedAfterStart` | modulesdk/hostclient.go:334-342 | a connection's declarations are accepted before and refused after its jobs were started |
| `ModuleServerObject.ModuleServer.Init` | modulesdk/lifecycle.go:55-123 | which code answers, in terms of the state, the ids, the protocol and the outcomes of configuration, dial and module; what is retained on success; every refusal leaves state and hosts alone; a failing module leaves a closed, dropped host; the call is a legal run of the machine |
| `ModuleServerObject.ModuleServer.Start` | modulesdk/lifecycle.go:125-139 | the code for every state and outcome; on success one unmoved goroutine per job in order and one watchdog if asked for, and the WaitGroup raised by as many; otherwise nothing changes |
| `ModuleServerObject.ModuleServer.Stop` | modulesdk/lifecycle.go:141-165 | idempotent and a no-op before Start; from Started, whatever Module.Stop answers, the host is kept with its surfaces, jobs and interval, its context cancelled, the same goroutines all ended and every job run at least once; only a failing Module.Stop from Started is reported and leaves the state |
| `ModuleServerObject.ModuleServer.Shutdown` | modulesdk/lifecycle.go:176-188 | as Stop, for the host too, and the token is posted exactly on success |
| `PolicyWatch.StepKeeps` | modulesdk/testkit/hostserver.go:115-132 | every step, for any number of calls, keeps the no-lost-wake-up invariant: a watcher parked, or about to park, on another document than the current one, though the guard of its loop lets that one through, has a token or is still in the snapshot of an unfinished SetPolicy |
| `PolicyWatch.NoLostUpdate` | modulesdk/testkit/hostdata.go:110-137 | in every interleaving of any number of calls, once all SetPolicy calls have returned, a watcher parked on an empty channel has sent the current revision and data last, unless the loop's guard `rev >= sent` holds them back |
| `PolicyWatch.LossExactly` | modulesdk/testkit/hostserver.go:120-120 | some interleaving of n SetPolicy calls loses the last one if and only if n is at least 2^64 and not 2^64 - 1 modulo 2^64 |
| `PolicyWatch.StreamSound` | modulesdk/testkit/hostserver.go:115-132 | for any number of calls, each document sent is the one some SetPolicy call installed since the watcher registered, under that call's revision; the stream never goes back to an earlier call; revisions increase except directly after 2^64 - 1; the client's channel is a prefix of what was sent, with nothing lost between while it is open |
| `PolicyWatch.IncreasesExactly` | modulesdk/testkit/hostserver.go:125-125 | sent revisions strictly increase in all interleavings of n calls if and only if n < 2^64 - 1: after sending 2^64 - 1 a watcher sends it again |
| `PolicyWatch.GenuineExactly` | modulesdk/testkit/hostdata.go:110-114 | in all interleavings of n calls each sent pair is the data of the call its revision numbers if and only if n < 2^64 |
| `PolicyWatch.WatcherStepExactly` | modulesdk/testkit/hostserver.go:118-131 | for every step: only a Send that succeeds adds to a stream, the document last read; only a failing Send or the stream's end closes the handler; only a forward adds to the client's channel, and only a failing receive or an abandoned forward closes it |
| `PolicyWatch.WatchersExactly` | modulesdk/hostclient.go:217-238 | the same over every run: how many documents were sent and forwarded, and exactly what ended handler and client |
| `PolicyWatch.RunsSettle` | modulesdk/testkit/hostserver.go:118-131 | without further SetPolicy or Watch calls every run ends within a bound computed from its start |
| `PolicyWatch.SettledIsCurrent` | modulesdk/hostclient.go:217-238 | where a run has settled, every open watcher has sent the current document last unless the guard holds it back, and every open client channel has yielded all that was sent |
| `PolicyWatch.SettledExactly` | modulesdk/testkit/hostserver.go:118-131 | a settled run of n calls can leave an open watcher out of date if and only if n is at least 2^64 and not 2^64 - 1 modulo 2^64 |
| `PolicyWatch.SetPolicyAlone` | modulesdk/testkit/hostdata.go:110-122 | an uninterrupted SetPolicy is a legal run that installs the document and leaves every watcher a token |
| `EventBus.TopicMatches` | modulesdk/testkit/hostdata.go:186-196 | the search finds a match exactly when some pattern matches |
| `EventBus.PatternMeaning` | modulesdk/testkit/hostdata.go:185-196 | a pattern matches itself and, if it is a non-empty prefix followed by a star, every topic with that prefix; nothing else |
| `EventBus.OriginsExactly` | modulesdk/testkit/hostserver.go:168-172 | the glob of one module can match an event of another exactly if one id is the other's dot-separated ancestor or they are equal, and matches all its events exactly if the subscribed id is the ancestor or equal |
| `EventBus.OriginIsolation` | modulesdk/testkit/hostserver.go:168-172 | hence for ids without a dot the glob of one module matches exactly the events published by that module |
| `EventBus.OriginsConfused` | modulesdk/module.go:158-159 | with a dot in an id it does not: two publishers with the same stamped topic, each matched by the other's glob |
| `EventBus.FanOutConservation` | modulesdk/testkit/hostdata.go:140-169 | in every interleaving, of the matching publishes whose snapshot includes a subscriber each is sent, broke the stream, queued, dropped or pending, exactly one of these and once; nothing else reaches it |
| `EventBus.SendsExactly` | modulesdk/testkit/hostserver.go:174-190 | for every step: only a successful send adds to what a stream accepted, the event at the head of the channel, and the subscription stays open; a failing send breaks the stream and closes it; else only a hang-up does |
| `EventBus.StreamsExactly` | modulesdk/testkit/hostserver.go:174-190 | over every run a stream has accepted as many events as sends succeeded, is broken exactly if one failed, and its subscription is open exactly if none failed and nobody hung up |
| `EventBus.DropsOnlyWhenFull` | modulesdk/testkit/hostdata.go:146-152 | an event is dropped only by a delivery that finds 64 events queued, and then alone |
| `EventBus.StreamsRespectTime` | modulesdk/testkit/hostdata.go:140-154 | no stream repeats an event or shows one before another whose Publish had returned before it was recorded |
| `EventBus.SerialisedInOrder` | modulesdk/testkit/hostdata.go:140-154 | with non-overlapping publishers every stream is an in-order subsequence of the record |
| `EventBus.OverlapCanReorder` | modulesdk/testkit/hostdata.go:142-153 | a concrete run in which two overlapping publishers are delivered against the record |
| `EventBus.OverlapCanAlwaysReorder` | modulesdk/testkit/hostdata.go:142-153 | wherever two publishers overlap on a subscriber with room for both, some schedule queues the later event first |
| `EventBus.PublishAlone` | modulesdk/testkit/hostdata.go:140-154 | an uninterrupted Publish is a legal run that records the event and offers it once to every subscriber |
| `Store.ApplyRefines` | modulesdk/hostclient.go:263-271 | a write through the prefix is that write on the client's view |
| `Store.ReplyRefines` | modulesdk/hostclient.go:255-287 | Get and List answer as a plain map of the view would; List yields exactly its keys with the prefix, fully trimmed |
| `Store.OverlapExactly` | modulesdk/hostclient.go:242-248 | two clients can reach a common key if and only if one prefix is a prefix of the other |
| `Store.RootSeesNamespaces` | modulesdk/hostclient.go:242-271 | what the client of a namespace puts, deletes and gets under k is what the root's client does under the namespace, a slash and k |
| `Store.NamespacesOverlap` | modulesdk/hostclient.go:242-248 | two namespaces overlap exactly if one is the root, they are equal, or one is nested in the other by a slash |
| `Store.EveryInterleavingIsPrivate` | modulesdk/hostclient.go:242-287 | in every interleaving with namespaces apart from its own, a namespace gets the replies and ends with the contents its own requests produce on a plain map |
| `Store.SlashFreeNamespacesArePrivate` | modulesdk/hostclient.go:242-287 | the same for any number of distinct, non-empty, slash-free namespaces |
| `Store.OutsideUntouched` | modulesdk/hostclient.go:263-271 | keys outside a namespace survive any sequence of its requests |
| `HostServices.HostData.StoreKeys` | modulesdk/testkit/hostdata.go:97-107 | every key with the prefix, each once |
| `HostServices.HostData.SetPolicy` | modulesdk/testkit/hostdata.go:110-122 | the revision goes up by one modulo 2^64, the document is replaced and every watcher's channel holds a token |
| `HostServices.HostData.AddPolicyWatcher` | modulesdk/testkit/hostdata.go:131-137 | one more channel, empty, and nothing else |
| `HostServices.SetPolicyIsRun` | modulesdk/testkit/hostdata.go:110-122 | from every state some run of the policy machine does to its host exactly what the SetPolicy method does |
| `HostServices.WatchIsStep` | modulesdk/testkit/hostdata.go:124-137 | registering in the policy machine does what AddPolicyWatcher does, and what it reads is what Policy returns |
| `HostServices.HostData.Publish` | modulesdk/testkit/hostdata.go:140-154 | the event is recorded last, and exactly the matching subscribers with room gain it at the end of their channel |
| `HostServices.PublishIsRun` | modulesdk/testkit/hostdata.go:140-154 | from every state satisfying its invariant some run of the event machine does to its record and channels exactly what the Publish method does |
| `HostServices.StoreClient.Get` | modulesdk/hostclient.go:255-261 | the reply is that of the client's view |
| `HostServices.StoreClient.Put` | modulesdk/hostclient.go:263-266 | the view gains the binding and every key outside the namespace is unchanged |
| `HostServices.StoreClient.Delete` | modulesdk/hostclient.go:268-271 | the view loses the key and every key outside the namespace is unchanged |
| `HostServices.StoreClient.List` | modulesdk/hostclient.go:273-287 | precisely the view's keys that start with the argument, each once |
| `Handshake.ParseExactly` | handshake/handshake.go:74-104 | Parse accepts exactly the strings of the line grammar, white space, leading zeros and the legacy network name included, and reads what they say |
| `Handshake.RoundTripExactly` | handshake/handshake.go:69-104 | Parse of Format returns the line if and only if the protocol is at least 1, the network unix or npipe, and the address non-empty, without a bar and without trailing white space |
| `Handshake.ParseCanonicalises` | handshake/handshake.go:69-104 | whatever Parse accepts, formatting and parsing the result again gives the same line |
| `Handshake.ParseErrors` | handshake/handshake.go:74-104 | for every five fields the first wrong one decides the error; else the line they say, with the legacy network name read as npipe |
| `Handshake.MalformedExactly` | handshake/handshake.go:75-78 | a string is malformed exactly if it is not WEAVE and four bar-free fields |
| `Handshake.WindowReadsBack` | handshake/handshake.go:113-129 | the two decimal environment values read back as the window, or as an invalid window exactly if it is one |
| `Handshake.ParsedWindowIsValid` | handshake/handshake.go:116-129 | ParseWindow returns a window exactly for two numerals that form a valid one |
| `Handshake.WindowErrors` | handshake/handshake.go:116-129 | which of the two bounds, or both together, is to blame |
| `Text.SplitJoins` | handshake/handshake.go:75-75 | the parts of a split are free of the separator and join back to the string |
| `Text.JoinSplits` | handshake/handshake.go:75-75 | splitting undoes joining of separator-free parts |
| `Text.TrimSpec` | handshake/handshake.go:75-75 | trimming removes exactly the white space around a string |
| `Text.SpaceExactly` | handshake/handshake.go:75-75 | white space is exactly the 25 code points of Unicode's White_Space property |
| `Negotiation.NegotiationExactly` | modulesdk/testkit/stubcore.go:64-169 | for every window, environment, protocol and address, exactly what core ends with: a refusal exactly when the window is valid and the protocol outside it, exit code 1 for a bad window or an incomplete environment, and otherwise a launch on the address up to its first newline without trailing white space, or a bad line if that is empty or has a bar; it is the module's own line if and only if the address has no bar and no newline |
| `Negotiation.RefusedExactly` | modulesdk/serve.go:63-67 | in numbers: refused exactly outside a window with 1 <= min <= max, or, unless the protocol is 1, under the default window |
| `Negotiation.InitAgreesOnProtocol` | modulesdk/testkit/stubcore.go:190-202 | after any launch, Init carries the protocol the module speaks and is not refused on it |
| `Negotiation.AddrEnds` | modulesdk/serve.go:140-153 | every module address is non-empty and ends in something else than white space |
| `Negotiation.LineArrives` | modulesdk/serve.go:114-114 | for every line a module can print, what scanning and parsing make of it |
| `Negotiation.OnTheWire` | handshake/handshake.go:69-71 | two printed lines and the exit codes, character by character |
| `Negotiation.Addresses` | modulesdk/serve.go:140-153 | the pipe name and the socket path of every module, and the network they go with |
| `Negotiation.PipesApart` | modulesdk/serve.go:140-147 | two modules or launches have the same pipe only for the same id and suffix |
| `Negotiation.ReceivedIntact` | modulesdk/serve.go:114-114 | the line arrives unchanged exactly if the address has no bar and no newline |
| `Negotiation.NewlineMisleads` | modulesdk/serve.go:114-114 | a socket address with a newline of which core dials the first line |
| `Watchdog.Run` | modulesdk/hostclient.go:397-429 | over any pattern of open and send failures the pings and the ticks that fail to open a stream they need add up to the ticks; every other tick's ping has that tick's outcome; pings are numbered 1, 2, 3, ... modulo 2^64, a new stream begins exactly after a failed ping, and the last stream is closed exactly if it still works |
| `Watchdog.TickOfPing` | modulesdk/hostclient.go:413-425 | every ping belongs to exactly one tick, in the order of the ticks |
| `Watchdog.StreamIsOneRun` | modulesdk/hostclient.go:415-425 | a stream carries one contiguous run of pings, of which only the last can have failed |
| `Watchdog.NumbersDistinct` | modulesdk/hostclient.go:422-423 | two pings carry the same number exactly if a multiple of 2^64 pings apart, and consecutive pings have consecutive numbers |
| `Watchdog.FailedOpensAreFree` | modulesdk/hostclient.go:415-421 | the pings of any two ticks are numbered as far apart as there are ticks between them that did not fail to open a stream, however many did |
| `LogHandler.BuildAttrs` | modulesdk/loghandler.go:37-54 | each key carries the record's last attribute of that grouped name, else the handler's last |
| `LogHandler.ExactlyOneSink` | modulesdk/loghandler.go:56-84 | a stream takes a record exactly if its Send is called with it and succeeds, the fallback exactly if send answers false; over any tree of derived handlers and any failures each handled record is then once in one stream or once in the fallback, never in both and never lost |
| `LogHandler.FallbackExactly` | modulesdk/loghandler.go:64-84 | the fallback ends up with exactly the records whose handler was broken, had no client, could open no stream or saw its stream's Send fail |
| `LogHandler.SinksInOrder` | modulesdk/loghandler.go:56-60 | over every run each stream and the fallback list their records in the order they were handled |
| `LogHandler.OneStreamEach` | modulesdk/loghandler.go:64-84 | each handler opens at most one stream, and one with a stream is not broken |
| `LogHandler.BrokenAbsorbs` | modulesdk/loghandler.go:67-82 | from any point of any run at which a handler is broken it never changes again, and what it handles there ends up in the fallback |
| `LogHandler.BrokenExactly` | modulesdk/loghandler.go:64-84 | at every point of every run a handler is broken exactly if it has a client and some record it handled before could be taken by no stream |
| `LogHandler.DerivedForgets` | modulesdk/loghandler.go:86-113 | a handler derived from a broken one is not broken and can open a stream of its own |
| `LogHandler.WithAttrsAdds` | modulesdk/loghandler.go:86-96 | a derived handler has its own additions, which win, and what it inherited, with client, stream and group unchanged |
| `LogHandler.DerivedMeaning` | modulesdk/loghandler.go:37-113 | for every chain of WithAttrs and WithGroup, what is sent under each key: the record's own attribute behind the dotted names of all groups, else the last attribute added under that key |
| `LogHandler.StreamHandler.TrySend` | modulesdk/loghandler.go:64-84 | the object's fields, the stream whose Send it calls and its answer follow the send function for every outcome of opening and sending |
| `Retry.Grow` | retry/retry.go:32-40 | for every Backoff and attempt the loop yields Max if some multiplication among the attempts reaches it, else the full product, and stops at the first that does |
| `Retry.ClosedForm` | retry/retry.go:32-40 | that is min(Max, Initial * Factor^attempt), for a positive initial delay and a factor of at least one, exactly if the initial delay is within the cap or the attempt is positive |
| `Retry.CapHoldsExactly` | retry/retry.go:17-18 | Max bounds the computed delay exactly if the initial delay is within it or the attempt is positive |
| `Retry.DelaysGrow` | retry/retry.go:32-40 | the computed delay never falls with the attempt exactly if the initial delay is within the cap |
| `Retry.DrawBounds` | retry/retry.go:41-41 | for a positive Max every draw is non-negative and strictly below the computed delay, within Max wherever Max bounds that delay, and zero exactly where the share is below a nanosecond; with a Max that is not positive delays after the first attempt are not positive |
| `Retry.ShareExactly` | retry/retry.go:41-41 | the duration is the product of draw and delay, less a fraction of a nanosecond towards zero |
| `Retry.PositiveExactly` | retry/retry.go:32-40 | the computed delay is positive exactly if Max is or the attempt is not |
| `Retry.Delay` | retry/retry.go:29-42 | the result is the draw's share of the computed delay within one nanosecond, rounded towards zero, and for an initial delay within the cap lies from 0 to Max and below the computed delay |
| `Retry.NewStopsEarly` | retry/retry.go:25-27 | under New the loop runs at most seven times and reaches the cap exactly from attempt 7 on |
| `Retry.NewDelays` | retry/retry.go:25-27 | under New the computed delay is one second doubled with each attempt, and two minutes from the seventh on |
| `Decimal.Itoa` | platform/platform_windows.go:31-43 | for every uint64 the index stays inside the 20-byte buffer and the result is its decimal form: digits, no leading zero, and the value on reading back |
| `Decimal.PrintReads` | platform/platform_windows.go:31-43 | printed numbers are digits without a leading zero and read back as themselves |
| `Decimal.ReadPrints` | platform/platform_windows.go:31-43 | every digit string without a leading zero is the print of its value |
| `Decimal.PrintInjective` | platform/platform_windows.go:31-43 | different numbers print differently |
| `Decimal.ParsePrinted` | handshake/handshake.go:79-83 | a printed number parses to itself exactly below the limit |

## Left out

- PolicyWatch.NoLostUpdate: allows the guard of the watcher's loop to hold the current document back, because the uint64 revision wraps; LossExactly says after which numbers of calls that happens.
- PolicyWatch.StreamSound: allows revision 2^64 - 1 to be sent twice and revisions to be reused after a wrap, because the code does so; IncreasesExactly and GenuineExactly say from how many calls on.
- PolicyWatch.SettledIsCurrent: allows the same guard to hold the document back; SettledExactly says after which numbers of calls.
- EventBus.OriginIsolation: for ids without a dot, because for dotted ids the promise that subscribers can trust the origin (modulesdk/module.go:158-159) fails; OriginsExactly says for which.
- EventBus.SerialisedInOrder: only for publishers that do not overlap; OverlapCanAlwaysReorder shows that overlapping ones can be reordered.
- Retry.ClosedForm: over real numbers; floating-point rounding and the distribution of the random draw are not modelled.
- Negotiation.NegotiationExactly: takes filepath.Join's result up to ".sock" and the random pipe suffix as parameters; launch timeouts, a cancelled context, failures to spawn or dial, and bufio.Scanner giving up on a line longer than 64 KiB are not modelled.
- gRPC transport, dialing, interceptors, tokens and peer credentials: only open, close, send and fail outcomes appear, as choices of an action; a store call that fails in transport is not modelled.
- Module code beyond its callbacks' outcomes and its calls of Declare: panics, and callbacks that never return.
- Stop's deadline, job intervals and all other times; timers may fire at any moment.
- awaitDisconnect's connectivity states: it may post its token at any time after Init.
- Health, Identity, Credential, Transport, and the wire copies of documents and events, which copy fields.
- Event timestamps and sequence numbers, log levels and times, and policy schema version and content type.
- Strings are sequences of Unicode scalar values; bytes that are not valid UTF-8 are not modelled.
- The config, wlog, werror and errmap packages and platform probing: single-branch mappings and system calls.
