# A verified model of the Kubernetes agent's core

The agent consumes commands from a Kafka partition, runs them, replies, and keeps long-lived subscriptions (log streams,
watches, health reports) in memory. This Dafny project models its stateful core and proves what holds over whole runs.

State machines (`KafkaProtocol` with `KafkaReplies`, `KafkaSessions`, `KafkaCommits`,
`KafkaRepeats` and `KafkaVerdicts`, `LogStreamIndex`,
`LogLines`, `WatchManager`, `Batcher`, `CoreClient`, `KeyedLock`, `LogLevel`) have a total step function `Apply` and a run
`Exec` over any sequence of events; an event that is not enabled changes nothing, so a theorem about `Exec` is a theorem
about every interleaving, crash and error. Lock regions are single steps. Beside the machines stand classes whose methods
mirror the source's methods and are proved to take exactly those steps; the processor's loop is joined to the runs by
`KafkaSessions.SessionIsRun`, the machine of `LogLevel` composes those of `LLCache` and `KeyedLock.Synchronizer`, and the
reader goroutine of a log stream is a part of its machine only. Outside decisions (does a publish succeed, does a regular
expression match, what time is it) are parameters.

What an operation computes is also said without its own helpers, from the calls, the messages or the lines alone: the
script of a message (`KafkaVerdicts.ScriptExact`), the items offered to a batcher, the subscriptions that stand, what a
cache caller reads back, which lines are near a match.

`dafny verify dfyconfig.toml` checks everything.

Findings, each stated with its exact condition:

- In commit-first mode an admitted command whose up-front commit fails is neither executed
  (`KafkaSessions.ExecutedExactly`) nor answered (`KafkaReplies.AnsweredOnceIff`).
- Commit-after mode can execute a command any number of times (`KafkaRepeats.CommitAfterMayRepeat`); no run executes an
  offset twice iff the mode is commit-first or nothing in the log is executable (`KafkaRepeats.AtMostOnceIff`). On the dual
  path a message is executable iff the adapter takes it for JSON, has an executor and can decode it; in protobuf mode
  nothing is (`KafkaRepeats.ProtobufNeverExecutes`).
- In commit-first mode the JSON path never commits what it rejects. A rejected message comes back after a restart iff no
  admitted message behind it has moved the position (`KafkaCommits.RejectedComeBack`).
- The deferred cleanup of a log stream deletes by id. If it takes out the entry of a newer run with the same id, that run
  is never stopped again (`LogStreamIndex.StolenNeverStopped`). Three promises are lost in this way, each with its own
  exact condition over whole runs: every stream can be stopped iff no cleanup takes out a newer run's entry
  (`LogStreamIndex.StoppableIff`); the two maps are inverse iff no cleanup takes out the same id on another pod
  (`LogStreamIndex.InverseIff`); there is one stream per pod iff no start is accepted on a pod where a run without an entry
  is still going (`LogStreamIndex.OnePerPodIff`). `LogStreamIndex.EarlyRestartBreaksIndex` gives histories for all three.
- A correlation id reused in flight can starve a request (`CoreClient.ReusedIdStarves`): every request in flight can be
  reached at all times iff ids in flight are distinct (`CoreClient.ReachableIff`).
- The path parser panics on the resource segment `s` and on nothing else (`ApiPath.PanicsIff`, `ApiPath.PrintedPanics`) and
  does not read back every printed address (`ApiPath.RoundTrip`). A query string appended after white space changes the
  result (`ApiPath.SpaceBeforeQuery`; for every input, `ApiPath.QueryIgnoredIff`), although the comment at
  `internal/policy/path.go:32` says queries must not matter.
- Lazy removal in the cache is invisible to Get and ListByPrefix but not to Len and to the counts of Delete and ClearPrefix
  (`CacheStore.LenSeesLazyRemoval`). They are what they would be without it iff no counted key is swept
  (`CacheStore.LenExactIff`, `CacheStore.CountsExactIff`).

## Model

| member | source | states |
|---|---|---|
| KafkaProcessor.Processor.HandleJson | internal/kafka/processor.go:102-152 | performs exactly the effects of the JSON plan, in order, and returns its error |
| KafkaProcessor.Processor.HandleDual | internal/kafka/processor.go:74-100 | performs exactly the effects of the dual plan, in order, and returns its error |
| KafkaProcessor.Processor.Dispatch | internal/transport/dual.go:68-119 | the adapter executes iff the message is not a claimed response, is taken for JSON, and decodes; otherwise it fails to decode, goes to the dispatcher, or is passed over, as mode, headers and collaborators say |
| KafkaProcessor.Processor.Run | internal/kafka/processor.go:55-65 | a session's effects are those of its messages one after the other, errors logged and passed over |
| KafkaVerdicts.ScriptExact | internal/kafka/processor.go:55-159 | every configuration, message and outcome: the effects of handling it are, in order, the up-front commit, the execution, the drop or the reply of the right kind, the late commit and the logged error that its fields, the guard, the adapter and the outcomes call for |
| KafkaVerdicts.ExecutedIff | internal/kafka/processor.go:74-151 | every run: a handled message was executed iff it is a complete command the guard admits with its topic (dual: a decodable command read as JSON for an executor, not taken by the sink) and, in commit-first mode, its commit was acknowledged |
| KafkaVerdicts.EffectsJustified | internal/kafka/processor.go:102-121 | every run with crashes: whatever was executed, answered, dropped or committed has its cause in the message; a guard rejection only where the guard refuses the command and allows its topic |
| KafkaVerdicts.GuardRespected | internal/kafka/processor.go:109-121 | JSON with a guard, every run: an executed offset holds a complete command the guard admits, with an allowed reply topic |
| KafkaSessions.SessionIsRun | internal/kafka/processor.go:55-65 | every run: since the last restart, what the loop has done and what its current handler will still do are exactly the effects of Run on the fetched messages; job replies are the only others |
| KafkaSessions.ExecutedExactly | internal/kafka/processor.go:74-151 | every run, both modes and paths: a handled message was executed once in the session if it reaches the executor and, in commit-first mode, its commit was acknowledged, and otherwise not at all |
| KafkaProtocol.AtMostOnce | internal/kafka/processor.go:74-87 | commit-first, JSON and dual: over every run with crashes, restarts and commit errors each offset is executed at most once, and only below the committed position |
| KafkaRepeats.CommitAfterMayRepeat | internal/kafka/processor.go:74-151 | commit-after, JSON and dual: every executable message anywhere in the log is executed any given number of times in some run |
| KafkaRepeats.AtMostOnceIff | internal/kafka/processor.go:74-151 | every setup: no run executes an offset twice iff the mode is commit-first or no message from the base on is executable; on the dual path, taken for JSON by an adapter with an executor, and decodable |
| KafkaRepeats.ProtobufNeverExecutes | internal/transport/dual.go:78-93 | with the adapter in protobuf mode no run executes anything |
| KafkaProtocol.NoSilentLoss | internal/kafka/processor.go:102-159 | commit-after, JSON: in every run each offset below the committed position was answered, handed to a job, dropped with a warning, or had a failed reply that Run logged |
| KafkaProtocol.LogsHandler.Handle | internal/handlers/logs/handler.go:56-83 | a job is accepted iff the channel has room and refused iff it has none; an accepted job takes one slot |
| KafkaReplies.ExactlyOneReply | internal/kafka/processor.go:109-151 | in every session each handled message has as many replies, made or due from its job, as it must get; each goes to its own topic and correlation id; one slot per running job, never more than the pool |
| KafkaReplies.AnsweredOnceIff | internal/kafka/processor.go:109-151 | JSON: a message with a usable, allowed reply address is answered exactly once, and not at all iff it is an admitted commit-first command whose commit failed |
| KafkaReplies.JobsProgress | internal/handlers/logs/handler.go:85-130 | a collecting job publishes once and then returns its one slot; the receive never waits |
| KafkaCommits.CommittedExactly | internal/kafka/processor.go:74-159 | every run, both modes and paths: a handled message was committed exactly once, or never if commit-first did not execute it or its reply failed; the position is behind the last commit that reached the broker |
| KafkaCommits.FetchedAgainIff | internal/kafka/processor.go:74-159 | every run, both modes and paths, wherever the crash falls: a message is fetched again iff it is of this session and neither its commit nor a later one has reached the broker |
| KafkaCommits.RejectedComeBack | internal/kafka/processor.go:102-121 | commit-first, JSON, wherever the crash falls: an unparseable or rejected message of the session comes back after a restart iff no admitted message behind it has been committed at the broker |
| LogStreamIndex.Manager.Start | internal/logstream/manager.go:154-182 | refused by policy, then for a known id, then for a busy pod, each with its own error and no change; otherwise registers both entries |
| LogStreamIndex.Manager.Stop | internal/logstream/manager.go:191-205 | takes the entry out and frees the pod slot only if the id owns it |
| LogStreamIndex.Manager.StopAll | internal/logstream/manager.go:207-216 | empties both maps and cancels exactly the runs that were registered |
| LogStreamIndex.Manager.Cleanup | internal/logstream/manager.go:224-233 | deletes by id, whatever run is registered under it |
| LogStreamIndex.IndexSound | internal/logstream/manager.go:154-233 | every interleaving: a registered id owns its pod slot and its run is live, every pod slot has a live run of that id and pod, both maps are empty once all runs have ended |
| LogStreamIndex.StopUndoesStart | internal/logstream/manager.go:154-205 | every history: a new id on a free pod gets a run and both entries, and Stop puts both maps back and stops that run |
| LogStreamIndex.StopAllStops | internal/logstream/manager.go:207-216 | every history: StopAll leaves nothing registered and stops exactly the registered runs |
| LogStreamIndex.InverseStep | internal/logstream/manager.go:224-233 | a step keeps podSubs inverse to subs iff it is not a late cleanup that hits the same id on another pod |
| LogStreamIndex.InverseIff | internal/logstream/manager.go:154-233 | every interleaving: podSubs is inverse to subs at all times iff no cleanup does this |
| LogStreamIndex.RegisteredStep | internal/logstream/manager.go:224-233 | a step keeps every run that is still going registered iff it is not a cleanup that takes out a newer run's entry |
| LogStreamIndex.StoppableIff | internal/logstream/manager.go:154-233 | every interleaving: all runs that are still going are registered at all times iff no cleanup takes out a newer run's entry |
| LogStreamIndex.StolenNeverStopped | internal/logstream/manager.go:191-233 | after such a cleanup no sequence of calls stops the newer run |
| LogStreamIndex.OnePerPodStep | internal/logstream/manager.go:154-182 | a step puts a second stream on a pod iff it is a start accepted on a pod where a run without an entry is still going |
| LogStreamIndex.OnePerPodIff | internal/logstream/manager.go:154-233 | every interleaving: at most one run per pod is still going at all times iff no such start occurs |
| LogStreamIndex.OneStreamPerPod | internal/logstream/manager.go:154-233 | as long as no cleanup takes out a newer run's entry, podSubs is exactly the inverse of subs and at most one run per pod is still going |
| LogStreamIndex.PatientCallersSafe | internal/logstream/manager.go:154-233 | no cleanup takes out a newer run's entry if no id is started again before the cleanup of its previous run |
| LogStreamIndex.EarlyRestartBreaksIndex | internal/logstream/manager.go:207-233 | an early restart can leave a stream nobody can stop on a blocked pod, or two streams on one pod: at once if it is the same pod, after StopAll if it is another |
| LogLines.Pump.Flush | internal/logstream/manager.go:247-277 | forced: hands over everything in batches of 100; otherwise only full batches |
| LogLines.Pump.AppendLine | internal/logstream/manager.go:278-289 | appends, evicts from the front down to the backlog, counts what it drops, hands over full batches |
| LogLines.Pump.Run | internal/logstream/manager.go:314-338 | the select loop stops at the first outcome that ends it and has done what the turns before it say |
| LogLines.LinesConserved | internal/logstream/manager.go:247-289 | every sequence of select outcomes: batches then pending are the received lines in order minus front evictions; batches have 1 to 100 lines; pending is at most min(backlog, 99); the drop counter is exact |
| LogLines.TurnExact | internal/logstream/manager.go:247-338 | every history: a line is kept as the newest, lines beyond the backlog go from the front one by one, exactly the hundredth pending line makes a batch; every other turn hands over all that is pending in batches of 100 and a remainder |
| LogLines.NoEviction | internal/logstream/manager.go:278-289 | a backlog of at least 100 never drops a line |
| LogLines.CleanEofHandsOverEverything | internal/logstream/manager.go:291-338 | reader, channel and loop together: on a clean end of stream without cancellation every line was received and every surviving line handed over |
| WatchManager.Manager.Subscribe | internal/watch/manager.go:76-149 | replaces an existing subscription, reuses or creates the informer, and registers only after a sync |
| WatchManager.Manager.StopAll | internal/watch/manager.go:166-179 | cancels every subscription and the root, empties both caches, starts a new root |
| WatchManager.Manager.GetOrCreateInformer | internal/watch/manager.go:188-214 | reuses the cached informer of the key or starts one on the current root with the payload's filters |
| WatchManager.InformerCacheSound | internal/watch/manager.go:89-99 | every history: both maps have the same keys, cached informers run on the current uncancelled root, and every informer lists the resource, selectors and namespace (none for the six cluster-scoped kinds) of each subscription attached to it |
| WatchManager.DeliveredExactlyOnce | internal/watch/manager.go:216-272 | every history and every object: a notification is published once for each live subscription on the informer whose filter allows its type, under that type, or as a Kubernetes event for the kind Event that allows those; never for an object that is not unstructured under its final states, never for a replaced, removed or expired subscription |
| WatchManager.SubscribedExactly | internal/watch/manager.go:76-179 | every history: registered are exactly the ids whose last successful Subscribe has not been replaced or removed since, with that payload |
| WatchManager.SilencedByExpiryOnly | internal/watch/manager.go:76-179 | every history: the context of a registered subscription is cancelled only by its own expiry |
| WatchManager.StandingListens | internal/watch/manager.go:76-149 | every history: such a subscription listens, unless expired, to an informer that shows what it asks for |
| Batcher.Batcher.Add | internal/batcher/batcher.go:37-51 | refuses iff closed; appends in the reused array, starts the timer on the first item, flushes at the size |
| Batcher.Batcher.FlushLocked | internal/batcher/batcher.go:88-104 | hands a fresh copy of the buffer to a flush call and empties the buffer; no batch shares the buffer's array |
| Batcher.Batcher.Close | internal/batcher/batcher.go:61-72 | closes, stops the timer and flushes the rest under the lock |
| Batcher.Batcher.TimerCallback | internal/batcher/batcher.go:74-86 | a fired timer flushes unless the batcher is closed or empty |
| Batcher.BatcherSound | internal/batcher/batcher.go:37-104 | every interleaving with stale timers: batches then buffer are the accepted items in order, batches have 1 to maxSize items, a non-empty open buffer has a live timer, the wait group counts unfinished flush calls |
| Batcher.AcceptedExactly | internal/batcher/batcher.go:37-72 | every interleaving: the accepted items are those of the Add calls before the first Close, and the batcher is closed iff Close was called |
| Batcher.AddBatches | internal/batcher/batcher.go:37-51 | every history: an Add makes a batch iff its item is the maxSize-th in the buffer, and then of the whole buffer |
| Batcher.FlushBatches | internal/batcher/batcher.go:53-72 | every history: Flush and Close hand over the whole buffer as one batch, and nothing if it is empty |
| Batcher.OneTimerArmed | internal/batcher/batcher.go:74-104 | every interleaving: only the current timer can still go off, and only while an open batcher holds items |
| Batcher.TimeoutFlushes | internal/batcher/batcher.go:74-86 | when the timer of a non-empty open buffer goes off its items become the last batch |
| Batcher.ClosedMeansFlushed | internal/batcher/batcher.go:61-72 | once Close returns every accepted item is in a batch whose flush call has finished, and that stays so |
| CoreClient.Client.Register | internal/coreclient/client.go:98-106 | needs an id; makes a one-slot channel and enters it under the id, whatever was there |
| CoreClient.Client.Lookup | internal/coreclient/client.go:56-66 | finds a channel iff the message is a response with a pending id |
| CoreClient.Client.Send | internal/coreclient/client.go:67-71 | fills an empty slot, drops the response on a full one, never waits |
| CoreClient.Client.Finish | internal/coreclient/client.go:107-140 | returns the slot's response or gives up, then deletes the entry of the id |
| CoreClient.CorrelationSafe | internal/coreclient/client.go:56-140 | every interleaving: a returned response has the request's id and was the first sent to it; a pending entry never outlives its request (that a send never waits is by construction of the step) |
| CoreClient.FirstMatchingResponseWins | internal/coreclient/client.go:98-140 | distinct ids in flight: the returned response is the first matching one after registration, and every matching response reaches the request's own channel |
| CoreClient.RequestsExactly | internal/coreclient/client.go:98-106 | every interleaving: the requests are exactly the registrations with an id, in order |
| CoreClient.ResponsesRouted | internal/coreclient/client.go:56-72 | distinct ids in flight: a message with a request's id is delivered to that request iff it is a response |
| CoreClient.StrangersIgnored | internal/coreclient/client.go:56-66 | a message whose id no request in flight has is delivered to nobody |
| CoreClient.ResponseArrives | internal/coreclient/client.go:56-140 | distinct ids in flight: looked up, sent and received, a response to a waiting request is what the request returns |
| CoreClient.GivenUpForgotten | internal/coreclient/client.go:107-140 | a request that gives up loses its entry, and its late response goes to nobody |
| CoreClient.ReachableIff | internal/coreclient/client.go:98-140 | every interleaving: every request in flight is found under its id at all times iff no id is registered while in flight |
| CoreClient.ReusedIdStarves | internal/coreclient/client.go:104-111 | a reused id can leave a waiting request that no response reaches |
| TrimInPlace.TrimObjectMap | internal/k8s/trim.go:35-56 | the in-place recursion over mutable nested maps leaves the value `Trimmed` in the same nodes |
| Trim.TrimRemovesExactly | internal/k8s/trim.go:35-56 | every JSON value and every path: what is deleted is managedFields, last-applied, annotations left empty and optionally status, through nested items; everything else is exactly as before |
| Trim.ResourceVersionKept | internal/k8s/trim.go:63-72 | metadata.resourceVersion is unchanged wherever its object survives |
| Trim.TrimIdempotent | internal/k8s/trim.go:35-56 | trimming twice is trimming once |
| ApiPath.RoundTrip | internal/policy/path.go:23-117 | every well-formed address and method: parsing the printed path gives back group, version, namespace, name, verb, kind and the secret flag iff the address is not one of three ambiguous forms |
| ApiPath.ReadsVerb | internal/policy/path.go:119-134 | the printed path of a faithful address gives the verb of the method: get, create, update, patch, delete, or the method in lower case |
| ApiPath.KindByRule | internal/policy/path.go:136-173 | six kinds of two words are spelled out; every other kind is the resource name in the singular with a capital letter |
| ApiPath.NamespaceByName | internal/policy/path.go:61-117 | a namespace by name is both name and namespace of the request |
| ApiPath.ResourceFirst | internal/policy/path.go:61-117 | with a resource in front of the namespace the last resource names the kind, and either makes the request one for a secret |
| ApiPath.PanicsIff | internal/policy/path.go:61-173 | the parser panics iff a segment it maps to a kind is `s` |
| ApiPath.PrintedPanics | internal/policy/path.go:136-173 | it does so on the printed path of every well-formed address of the resource `s` |
| ApiPath.QueryIgnored | internal/policy/path.go:32-35 | an appended query string changes nothing unless the path ends in white space outside a query |
| ApiPath.QueryIgnoredIff | internal/policy/path.go:23-117 | every method and path: an appended query changes nothing iff the method is blank, the path has a query, or the path is not blank and either does not end in white space, has an unknown prefix, or panics with and without that white space |
| ApiPath.SpaceBeforeQuery | internal/policy/path.go:25-35 | a space behind a printed path changes nothing, a space and a query do |
| Bucketizer.Bucketizer.Add | internal/modules/ottlogstrue/bucketizer.go:27-50 | one line moves the buffer and closes at most one bucket as the step function says |
| Bucketizer.Bucketizer.Stream | internal/modules/ottlogstrue/bucketizer.go:27-61 | adding all lines and flushing yields exactly the recursive cut of the lines |
| Bucketizer.StreamingCuts | internal/modules/ottlogstrue/bucketizer.go:27-61 | the same from any open or empty buffer |
| Bucketizer.CutIsSound | internal/modules/ottlogstrue/bucketizer.go:27-50 | each bucket is one matching line and calm lines after it, at most max(size, 2) in all; the first lines are all matching lines once each, in order |
| Bucketizer.OnlyClosedLinesDiscarded | internal/modules/ottlogstrue/bucketizer.go:39-41 | the buckets hold, in order, every line except those that arrive while no bucket is open |
| Bucketizer.KeptByDistance | internal/modules/ottlogstrue/bucketizer.go:27-61 | the buckets together are exactly the lines fewer than max(size, 2) lines behind the last match, in order |
| LogDecode.Scan | internal/nodelocal/reader.go:153-174 | collects the since-filtered messages of the lines it takes and ends at the first that exceeds the limit, at the cancelled turn, or at the end |
| LogDecode.DecodeTo | internal/nodelocal/reader.go:147-187 | every file, option set and fault: the output is the tail of the byte-limited part of the filtered lines, with the exact condition for each error |
| LogSlice.LimitedPart | internal/nodelocal/reader.go:169-173 | the limited part is unique; all its lines but the last fit in a non-negative limit; a negative limit lets one line through |
| LogSlice.UntimedSurvives | internal/nodelocal/reader.go:166-168 | a line without a timestamp always survives the filter, in its place |
| LogSlice.FilteredExactly | internal/nodelocal/reader.go:161-169 | every raw line on its own, in its place: left out iff its timestamp is before the requested time; otherwise its message, or all of it when it does not parse |
| LogSlice.SizeIsWritten | internal/nodelocal/reader.go:170-183 | the size that is limited is the number of bytes written, newlines included |
| LogSlice.TailIsSuffix | internal/nodelocal/reader.go:178-180 | the tail is the last lines, as many as asked for, or all if fewer, none or a negative number is asked for |
| HealthPaging.CollectPods | internal/healthreport/manager.go:271-308 | fails iff a listing fails; counters say what they are named for and phases add up to the total; the collected pods are the listed or the not-ready ones, as many as the counter says |
| HealthSummary.NotReadyExactly | internal/healthreport/manager.go:271-308 | the not-ready pods are exactly those whose status is not ready, each as often as listed |
| HealthSummary.ListedAll | internal/healthreport/manager.go:271-308 | the listed pods are the namespace listings one after the other |
| HealthPaging.PublishOnce | internal/healthreport/manager.go:231-308 | nothing is published iff a listing fails; otherwise the pages carry the same true counters, are numbered, within the limit, full except the last, empty only if there are no pods, and concatenate to the listed or the not-ready pods, as many as the counter says |
| CacheStore.Store.Delete | internal/cache/store.go:50-61 | removes the keys and returns how much the map shrank |
| CacheStore.Store.Get | internal/cache/store.go:63-77 | answers an unexpired entry, removes an expired one |
| CacheStore.Store.ListByPrefix | internal/cache/store.go:79-94 | lists the unexpired entries with the prefix, one for each key |
| CacheStore.Store.ClearPrefix | internal/cache/store.go:102-113 | removes the keys with the prefix and returns how much the map shrank |
| CacheStore.StoredExactly | internal/cache/store.go:36-113 | every history: a key is stored iff its last write stands and no Get has come upon it expired, and then with that entry |
| CacheStore.LazyRemovalUnseen | internal/cache/store.go:63-94 | every history with a clock that never goes back: Get and ListByPrefix show the last unexpired write of each key, as if nothing were removed lazily |
| CacheStore.PutThenGet | internal/cache/store.go:36-77 | every history: the last put of a key is read back with its value and time for the given seconds, for ever if none were given, and then no more |
| CacheStore.RemovedThenGet | internal/cache/store.go:50-113 | every history: a key deleted or cleared and not put again is not read back |
| CacheStore.LenExactIff | internal/cache/store.go:115-119 | every history: Len is at most what it would be without lazy removal, and equal iff no key with a standing write has been swept by a Get |
| CacheStore.CountsExactIff | internal/cache/store.go:50-113 | every history: the same for the counts of Delete and ClearPrefix, iff no counted key has been swept |
| CacheStore.LenSeesLazyRemoval | internal/cache/store.go:115-119 | Len and the count of Delete differ between two histories that Get cannot tell apart |
| KeyedLock.ExclusivePerKey | internal/keyedlock/synchronizer.go:15-32 | every interleaving: at most one thread inside per key, and a waiting thread is kept out iff another is inside its key |
| KeyedLock.ReleaseFrees | internal/keyedlock/synchronizer.go:26-42 | every history: a thread that leaves a key is outside, nobody is inside the key, and whoever waits for it can enter |
| KeyedLock.FreeKeyEntered | internal/keyedlock/synchronizer.go:26-37 | every history: a thread that wants a key nobody is inside of gets in |
| KeyedLock.LocksPersist | internal/keyedlock/synchronizer.go:15-24 | a key keeps its mutex for good |
| KeyedLock.Synchronizer.Unlock | internal/keyedlock/synchronizer.go:39-42 | the second lookup finds the mutex the caller holds |
| LogLevel.LLCache.UpdateNewRequest | internal/modules/loglevel/module.go:38-47 | refuses iff the same level was stored and has not expired; otherwise stores it |
| LogLevel.LLCache.Get | internal/modules/loglevel/module.go:55-63 | returns the stored level up to and including the instant of its expiry |
| LogLevel.SkippedIffFresh | internal/modules/loglevel/module.go:38-47 | every interleaving: a request is skipped iff the key was last written with the same level less than the lifetime ago |
| LogLevel.LogComesFromCalls | internal/modules/loglevel/module.go:116-142 | every interleaving: every answer, confirmation and update is about a request or update that was made, with its own key and level |
| LogLevel.ChecksAreLogged | internal/modules/loglevel/module.go:38-47 | every history: a check inside the lock is answered at once: skipped iff the key's last write has the same level and is less than the lifetime old |
| LogLevel.WritesAreLogged | internal/modules/loglevel/module.go:49-53 | every history: a confirmation and an update from the core store their level for the lifetime and become the key's last write |
| LogLevel.WholeRequest | internal/modules/loglevel/module.go:116-142 | every history: a request for a free key gets one answer, is confirmed iff accepted, and leaves the lock |
| LogLevel.AcceptedApart | internal/modules/loglevel/module.go:116-142 | every interleaving: of two accepted requests for one key and level with no other level between, the first is confirmed before the second is checked, and the second comes at least the lifetime after that |

## Left out

- Kafka, S3, Kubernetes, HTTP and TLS transport: only their possible failures are modelled, as freely chosen outcomes.
- Leader election and lifecycle wiring: one consumer at a time is taken for granted; a crash also ends the running jobs.
- JSON decoding, gzip, regular expressions and time formatting: decoded values, match verdicts and times are inputs.
- What the protobuf dispatcher and the response sink do with a message: whether the sink has a pending request, and whether the dispatcher fails, are free outcomes.
- KafkaProcessor.Processor.Dispatch: the probe for a command and the decoding of headers are inputs, and a header that occurs twice has one value.
- Registration of health reports: the same start, stop and cleanup by id as log streams, with a single map.
- Pod restart events of the watch manager: they are published without a look at the context.
- The window between the two locks inside Store.Get: operations are atomic here.
- The typed decoding in ExtractResourceVersion: resourceVersion is followed at the level of JSON trees.
- SendRequestVoid and body compression: a request that cannot be published is one that gives up.
- ApiPath.RoundTrip: case mapping is modelled for ASCII letters, and a string is a sequence of characters, so slicing the first byte off a multi-byte character is not captured. The request struct is a value that is returned changed, not a record filled in place.
- CacheStore.Store.Put: integers are unbounded, so the overflow of a very long lifetime is not captured.
- HealthPaging.PublishOnce: integers are unbounded; publishing failures are only logged in the source and have no effect here.
- Selection of the log file and of the pod directory, readiness of a pod, payload validation, configuration, features, metrics: field checks that would only add easy members.
- The archived `k8s-agent` tree and the tools under `hack`.
