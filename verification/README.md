# A verified model of rusi

rusi is a messaging sidecar: a Go process beside an application that publishes and subscribes for it
over gRPC, loads components from files or from a Kubernetes operator, and is put into pods by an
injector. This project models the parts of it where order, sharing or text formats decide whether it
is right, and proves what they keep. `dafny verify dfyconfig.toml` checks everything.

Where the code promises more than it keeps, the model follows the code. Such a place has a lemma with
a concrete input or run that shows the failure, and a lemma that says for all inputs when the code
does keep its promise.

| file | what it models |
|---|---|
| `SubscriptionRefresh.dfy`, `SubscriptionHistory.dfy` | any number of gRPC subscription streams and `Refresh` calls, interleaved step by step, and what the events of a run say about them |
| `AckProtocol.dfy`, `AckHistory.dfy` | message handlers and the ack receiver of one stream, with the shared map and its lock, and what the events of a run say about them |
| `OperatorWatch.dfy`, `WatcherHistory.dfy`, `ObjectWatcher.dfy` | the operator's object watcher with its callers and the listeners of both kinds as an interleaved system (`WatcherSteps`), what the events of a run say about it, and the watcher as an object whose methods are steps of that system (`Watcher`) |
| `PullLoop.dfy`, `PullHistory.dfy` | the JetStream pull loop: semaphore, workers, the `done` channel |
| `YamlDocuments.dfy`, `YamlLines.dfy` | the streaming YAML splitter, the scanner that drives it, the decode loop, and a reference definition by lines |
| `Placeholders.dfy` | `{uuid}` expansion in metadata items |
| `JsonPatch.dfy`, `PodPatch.dfy`, `PodDecision.dfy` | an interpreter for the `add` operation of RFC 6902 with pointers of RFC 6901, the sidecar injector's patch generator, and its decisions read off the raw object |
| `ComponentsManager.dfy`, `InstanceHistory.dfy`, `ManagerObject.dfy` | the components manager on values (`Component`), its instances over whole streams whatever fails, and the manager as an object with shared metadata maps on the heap (`ManagerObject`) |
| `InMemoryBus.dfy` | the in-memory bus, with slices as lengths over shared arrays |
| `Pipeline.dfy`, `EndToEnd.dfy` | middleware pipelines and the subscriber service, and client acks through them to broker acks |
| `NatsOptions.dfy` | how NATS streaming metadata and a request become a subscription |
| `Sequences.dfy`, `Wrappers.dfy` | list filters and searches, and result types, shared by the others |

In the interleaved systems a run is any list of enabled events from the initial state. An event is one
access to shared state; a lock held over several accesses is part of the state and disables the events
that need it. So "after any run" means under every interleaving of every number of goroutines.

What the proofs found about the code, each with its run or input and its exact condition:

* A second ack for a message id blocks the ack receiver for good if it arrives before the handler has
  deleted its map entry (`AckProtocol.SecondAckSticks`, `AckProtocol.HandOverIff`).
* A message that is delivered again while its first delivery waits loses its map entry when the first
  one is cancelled, and can then never be acked (`AckHistory.RedeliveryLosesItsEntry`,
  `AckHistory.CanBeAckedIff`).
* A `Refresh` blocks for good if a registered stream is not in its select, because that stream needs
  the write lock to get back there (`SubscriptionRefresh.RefreshCanBlock`,
  `SubscriptionRefresh.RefreshReturnsIff`).
* A watch stream that ends before its replay is through can block all further updates of the operator, of
  components and configurations alike, because both kinds share one lock
  (`WatcherSteps.AbandonedHappens`, `WatcherSteps.WritersProceedIff`,
  `WatcherSteps.BlockedByEarlyLeaversIff`).
* With a limit above one, two pull workers can both close `done`, and the second close panics
  (`PullLoop.TwoSlotsCloseTwice`, `PullLoop.DoneClosedOnceIff`).
* `decodeYaml` never returns when a document and its separator line do not fit the scanner
  (`YamlDocuments.LongLineOverflows`, `YamlDocuments.DecodeYaml`).
* A text that ends inside a separator line carrying more than dashes loses the document in front of it
  (`YamlLines.TailIsLost`, `YamlLines.OnlyAnUnfinishedSeparatorLoses`).
* Two components whose type and name only differ in where a dash is share one index entry
  (`Component.DashesCollide`, `Component.LookupIsLastAccepted`).
* After a failed update the manager keeps a closed pub/sub instance in its table and closes it again
  on the next update (`Component.StaleHappens`, `Component.StaleIff`).
* The patch fails as a whole if the pod has no labels, no spec or a null container
  (`PodPatch.UnlabelledPodFails`, `PodPatch.PatchMeaning`).
* NATS streaming metadata without a subscription type is accepted, but then every request without a
  word on queue groups fails (`NatsOptions.AcceptedButNoSubscription`, `NatsOptions.Subscribe`).

Broker acks also depend on user middlewares, which the repository does not control: if they pass errors
on, no ack is invented (`EndToEnd.NoInventedBrokerAcks`); one that swallows errors can invent one
(`EndToEnd.SwallowedErrorsInventAcks`).

## Model

| member | source | states |
|---|---|---|
| SubscriptionRefresh.StepKeepsInv | pkg/api/runtime/grpc/grpc_api.go:93-176 | every step of every stream and every Refresh call keeps the invariant tying subscription logs, bus handlers, refresh channels and tokens together |
| SubscriptionRefresh.SubscriptionBalance | pkg/api/runtime/grpc/grpc_api.go:139-175 | after any run a stream's log is its finished turns (opened, handler context cancelled, closed, in this order) and the started part of the current turn; at most one subscription is open, and all are closed once Subscribe has returned |
| SubscriptionRefresh.TurnsInOrder | pkg/api/runtime/grpc/grpc_api.go:139-175 | in that log the k-th subscription is opened, cancelled and closed at places 3k, 3k+1 and 3k+2: exactly once each, and before the next one opens |
| Sequences.Without | pkg/messaging/inmemory.go:47-53 | closing removes one handler from a topic's list, every occurrence of it, and leaves a list without it as it is |
| Sequences.WithoutKeepsOthers | pkg/messaging/inmemory.go:47-53 | closing keeps every other handler as often as it was |
| SubscriptionRefresh.HandlerCount | pkg/messaging/inmemory.go:36-57 | after any run the bus holds one handler for each stream subscribed to a topic and no other |
| SubscriptionRefresh.ChannelKept | pkg/api/runtime/grpc/grpc_api.go:102-119 | a stream keeps the same refresh channel over all its turns, and loses it only by returning from Subscribe |
| SubscriptionRefresh.RefreshHitsEveryoneOnce | pkg/api/runtime/grpc/grpc_api.go:93-100 | a Refresh that came back handed one token to each stream registered at its start and none to any other, whatever else ran meanwhile |
| SubscriptionRefresh.RefreshReturnsIff | pkg/api/runtime/grpc/grpc_api.go:93-119 | a Refresh can come back if and only if every stream registered at its start is in its select |
| SubscriptionRefresh.BlockedForEver | pkg/api/runtime/grpc/grpc_api.go:93-119 | a stream owed a token outside its select never gets there again, and the Refresh never returns |
| SubscriptionRefresh.RefreshCanBlock | pkg/api/runtime/grpc/grpc_api.go:93-176 | a run, for any stream, topic and call, after which a Refresh can never come back |
| SubscriptionRefresh.RefreshNeverBlocks | pkg/api/runtime/grpc/grpc_api.go:93-163 | without cancellation and without another Refresh, each stream that a Refresh of parked streams still owes a token can take it, at every point of every run |
| SubscriptionRefresh.RefreshCountdown | pkg/api/runtime/grpc/grpc_api.go:93-100 | each token and the return lower the rank of a Refresh by one, and no step of any other goroutine changes it |
| SubscriptionRefresh.RefreshCompletes | pkg/api/runtime/grpc/grpc_api.go:93-163 | a Refresh of parked streams takes one step per registered stream and one to return, is back exactly when it has taken them, and has an enabled step until then |
| SubscriptionHistory.ExitsIff | pkg/api/runtime/grpc/grpc_api.go:154-174 | a stream is on its way out of Subscribe through a done context if and only if its context or the server's was done: a refresh sends nobody out |
| SubscriptionHistory.NothingAfterDone | pkg/api/runtime/grpc/grpc_api.go:154-174 | once its context is done a stream opens no subscription and takes no token |
| SubscriptionHistory.TurnsAreTokens | pkg/api/runtime/grpc/grpc_api.go:139-175 | a stream has taken one token for every turn behind it, and one more exactly while it closes the current turn for a refresh |
| SubscriptionHistory.TokensAreEvents | pkg/api/runtime/grpc/grpc_api.go:93-100 | the tokens on record are exactly the ones handed over |
| SubscriptionHistory.TopicIsRequested | pkg/api/runtime/grpc/grpc_api.go:127-146 | a stream keeps the topic of its one subscription request through all turns |
| SubscriptionHistory.HandlersWereRequested | pkg/api/runtime/grpc/grpc_api.go:141-146 | every handler on the bus is on the topic its stream asked for, and of the turn its tokens say |
| SubscriptionHistory.ChannelsAreOwn | pkg/api/runtime/grpc/grpc_api.go:102-113 | no two streams share a refresh channel |
| SubscriptionHistory.StreamGetsReady | pkg/api/runtime/grpc/grpc_api.go:122-161 | while no Refresh holds the lock, a new stream subscribes to its topic and gets to its select with a channel of its own |
| SubscriptionHistory.RefreshedStreamComesBack | pkg/api/runtime/grpc/grpc_api.go:161-175 | a stream that took a token closes its subscription, opens the next turn on the same topic and is back in its select on the same channel |
| SubscriptionHistory.DoneStreamLeaves | pkg/api/runtime/grpc/grpc_api.go:155-174 | a stream whose context is done closes its subscription and returns, without its channel |
| SubscriptionHistory.FailedOpenLeaves | pkg/api/runtime/grpc/grpc_api.go:147-151 | a stream whose subscription cannot be opened returns, without its channel, and leaves the bus as it was |
| SubscriptionHistory.BadRequestLeaves | pkg/api/runtime/grpc/grpc_api.go:127-134 | a stream without a subscription request returns and changes nothing else |
| AckProtocol.StepKeepsInv | pkg/api/runtime/grpc/grpc_api.go:183-280 | every step of handlers, receiver and broker callback keeps the invariant: entries point at registered handlers, and success comes only from a positive ack met in the select |
| AckProtocol.NoInventedAcks | pkg/api/runtime/grpc/grpc_api.go:192-277 | after any run, with duplicates, cancellations and failures, each successful handler met its own positive client ack for its message id, so broker acks for an id never exceed positive client acks for it |
| AckProtocol.HandOverIff | pkg/api/runtime/grpc/grpc_api.go:263-277 | a receiver that is handing an ack over can get rid of it if and only if the handler has not left its select |
| AckProtocol.StuckForEver | pkg/api/runtime/grpc/grpc_api.go:202-277 | once the handler is past its select, receiver, map and handler stay as they are on every further run |
| AckProtocol.SecondAckSticks | pkg/api/runtime/grpc/grpc_api.go:263-277 | a run for every message id in which a duplicate ack blocks the receiver for good |
| AckProtocol.ReceiverNeverStuck | pkg/api/runtime/grpc/grpc_api.go:197-236 | without cancellation and failures, and with one ack per id at most, the handler the receiver waits for has met no ack and its next step towards its select is enabled |
| AckProtocol.HandoverRank | pkg/api/runtime/grpc/grpc_api.go:213-277 | that step lowers a rank of at most two, no other step raises it or ends the wait, and at rank zero this handler has taken this ack |
| AckHistory.OnlyStopStops | pkg/api/runtime/grpc/grpc_api.go:243-279 | the receiver has stopped if and only if the stream has ended: unknown, late and negative acks do not stop it |
| AckHistory.AcksAreEvents | pkg/api/runtime/grpc/grpc_api.go:249-261 | the acks on record are the client acks received, in order and unchanged |
| AckHistory.HandlersAreEvents | pkg/api/runtime/grpc/grpc_api.go:192-199 | a handler is for the id of the message it arrived with, one without an id has failed, and broker acks on record are the ones sent |
| AckHistory.EntryIsRegistrant | pkg/api/runtime/grpc/grpc_api.go:198-206 | the map entry of an id is the last handler to register, unless one of that id cleaned up since |
| AckHistory.MessageWaits | pkg/api/runtime/grpc/grpc_api.go:192-223 | a message with an id gets its handler to its select with the id's entry |
| AckHistory.AckReachesHandler | pkg/api/runtime/grpc/grpc_api.go:249-277 | an ack for a waiting handler with its entry ends it with exactly the ack's result, and the receiver is ready for the next ack |
| AckHistory.UnknownAckIsSkipped | pkg/api/runtime/grpc/grpc_api.go:263-277 | an ack for an id that is not in the map changes nothing, and the receiver is ready for the next one |
| AckHistory.SuccessIsAcknowledged | pkg/messaging/jetstream/jetstream.go:217-220 | the message of a handler that succeeded can be acknowledged to the broker |
| AckHistory.CancelledHandlerFails | pkg/api/runtime/grpc/grpc_api.go:223-231 | a handler whose context is done fails and deletes the entry of its id |
| AckHistory.UnsentHandlerFails | pkg/api/runtime/grpc/grpc_api.go:209-220 | a handler that cannot marshal or send its message fails and deletes the entry of its id |
| AckHistory.CanBeAckedIff | pkg/api/runtime/grpc/grpc_api.go:198-277 | while the receiver is free, a waiting handler can still be acked if and only if it is the last of its id to register and none of that id cleaned up since |
| AckHistory.RedeliveryLosesItsEntry | pkg/api/runtime/grpc/grpc_api.go:198-206 | a run for every id in which a second delivery waits and can never be acked |
| WatcherSteps.StepKeepsInv | pkg/operator/operator.go:83-194 | every step keeps the invariant behind the results below, for any number of updates and listeners of both kinds under one lock |
| WatcherSteps.NoLostUpdate | pkg/operator/operator.go:83-194 | after any run, a registered listener has received the current version of every object of its kind, or has it pending, or is owed it by its replay, or it is unpublished; versions stored since it registered do not depend on the replay |
| WatcherSteps.QuietIsUpToDate | pkg/operator/server.go:20-60 | when nothing is pending every listener has received the current version of every object of its kind, and forwarded exactly those its watch asked for |
| WatcherSteps.AtMostTwice | pkg/operator/operator.go:90-170 | an update reaches a listener of its kind at most once by publishing and once by replay, unchanged, listeners of the other kind never, and the stream sees only what it asked for |
| WatcherHistory.CurrentIsLastStored | pkg/operator/operator.go:83-86 | the current versions are exactly the last updates of each kind and UID |
| WatcherHistory.UnpublishedIff | pkg/operator/operator.go:83-88 | a stored version is unpublished exactly until its publish step, which takes place once |
| WatcherHistory.ListenersAreEvents | pkg/operator/server.go:20-60 | a listener is what it was added as, reads until its stream ends, and is registered until it is removed |
| WatcherHistory.SinceItWasAdded | pkg/operator/operator.go:143-146 | a listener is registered since the updates stored before it was added |
| WatcherHistory.PublishedAreDeliveries | pkg/operator/server.go:46-48 | the publishes received on record are the deliveries that took place |
| WatcherHistory.ForwardsWhatItWatches | pkg/operator/server.go:25-54 | a stream forwards an item as often as it received it if the kind, the namespace and, for configurations, the name are the ones it asked for, and never otherwise |
| WatcherHistory.EverythingCanArrive | pkg/operator/operator.go:83-170 | while the registered streams read, every reachable state leads, without anything new stored, to one where nothing is on its way and every stream has forwarded the current version of every object it watches |
| WatcherHistory.UpdateGetsThrough | pkg/operator/operator.go:83-101 | while no replay runs, an update becomes the current version and is sent once to every listing of its kind |
| WatcherHistory.StreamComes | pkg/operator/operator.go:143-170 | while no replay runs, a new stream is registered and served its whole replay |
| WatcherHistory.StreamGoes | pkg/operator/operator.go:172-194 | while no replay runs, a stream that stops is removed |
| WatcherSteps.AbandonedForEver | pkg/operator/operator.go:156-194 | a listener that left during its replay leaves the read lock held: nothing of either kind is stored, added or removed again |
| WatcherSteps.AbandonedHappens | pkg/operator/server.go:20-60 | a run of four steps, for any object and watch of its kind, after which no update of either kind can be stored and none ever will be |
| WatcherSteps.WritersProceedIff | pkg/operator/operator.go:156-194 | the one write lock can be had again if and only if no stream of either kind has left during its replay |
| WatcherSteps.LeftBeforeReplay | pkg/operator/operator.go:143-170 | a stream that left before its replay started abandons it when it starts, exactly when there is an object of its kind to send |
| WatcherSteps.BlockedByEarlyLeaversIff | pkg/operator/operator.go:143-183 | without further streams leaving, the writers can end up blocked for good if and only if some stream of either kind has left before its replay was through |
| WatcherSteps.OutlivedReplaysBlockNobody | pkg/operator/operator.go:143-183 | on every run in which each stream stops only after its replay has ended, the write lock can be had again |
| Watcher.SendsPerChannel | pkg/operator/operator.go:95-100 | a publish starts as many sends of its object to a channel as the channel is listed, and no other sends |
| Watcher.ObjectWatcher.constructor | pkg/operator/operator.go:53-61 | a new watcher is the initial state of the step system |
| Watcher.ObjectWatcher.Store | pkg/operator/operator.go:84-86 | the write-locked half of an update, on the map of the object's kind, is the store step |
| Watcher.ObjectWatcher.Publish | pkg/operator/operator.go:90-101 | the loop over the channel list of the kind is the publish step: its goroutines are the listeners' new pending sends |
| Watcher.ObjectWatcher.AddListener | pkg/operator/operator.go:143-154 | appending to the channel list of the kind is the registration step |
| Watcher.ObjectWatcher.RemoveListener | pkg/operator/operator.go:172-183 | the loop that rebuilds the channel list of the kind is the removal step |
| Watcher.ObjectWatcher.StartReplay | pkg/operator/operator.go:156-170 | a replay that gets the read lock owes exactly what the map of its kind holds |
| Watcher.ObjectWatcher.ReplaySend | pkg/operator/operator.go:156-170 | a received replay send is the replay step and carries the current version |
| Watcher.ObjectWatcher.Receive | pkg/operator/server.go:46-48 | a receive from a publish goroutine is the delivery step of that update, and the goroutine is gone |
| PullLoop.StepKeepsInv | pkg/messaging/jetstream/jetstream.go:246-274 | every step of loop and workers keeps the slot count and the state of every message |
| PullLoop.BoundedConcurrency | pkg/messaging/jetstream/jetstream.go:200-274 | on every interleaving the running workers are the slots taken and never exceed the configured limit, or one where it is not positive; every pulled message is running or finished, and at least pulled - limit messages are finished |
| PullLoop.AckOnlyOnSuccess | pkg/messaging/jetstream/jetstream.go:200-274 | for every configured limit a message is acked at most once and only after its handler succeeded; a finished message is acked if and only if its handler succeeded |
| PullLoop.DoneClosedOnceIff | pkg/messaging/jetstream/jetstream.go:200-274 | done is closed at most once on every interleaving if and only if the configured limit is at most one |
| PullLoop.TwoSlotsCloseTwice | pkg/messaging/jetstream/jetstream.go:261-265 | for every configured limit above one, a run in which done is closed twice |
| PullHistory.StateIsEvents | pkg/messaging/jetstream/jetstream.go:246-274 | pulls, closes, results, acks and ended messages on record are the events that took place |
| PullHistory.ReturnIsTheEnd | pkg/messaging/jetstream/jetstream.go:250-271 | the loop returns only after done was closed, and takes no slot and starts no worker afterwards |
| PullHistory.MessageIsHandled | pkg/messaging/jetstream/jetstream.go:206-270 | with a free slot a message is pulled, handled, acked exactly when its handler succeeds, and its slot is free again |
| PullHistory.PullErrorCloses | pkg/messaging/jetstream/jetstream.go:254-265 | a pull error closes done if it is open, frees its slot and lets the loop return |
| PullHistory.NextMessageCanBeHandled | pkg/messaging/jetstream/jetstream.go:246-274 | in every reachable state with a running loop and a free slot the next message can be handled, whatever the other workers do |
| YamlDocuments.SplitYamlDoc | pkg/custom-resource/components/loader/local.go:158-184 | a token is a front part of the data and always moves the scanner forward; without a token nothing is dropped |
| YamlDocuments.PrefixDecides | pkg/custom-resource/components/loader/local.go:158-184 | a token returned on a prefix is returned unchanged on every extension, at end of input or not, and exactly the prefixes reaching the end of the separator line return one |
| YamlDocuments.NextDocWhole | pkg/custom-resource/components/loader/local.go:145-184 | the next document depends on the whole remaining input only; the scanner's window matters only if document and separator line do not fit it |
| YamlDocuments.Scanner.Read | pkg/custom-resource/components/loader/local.go:113-114 | a read of any size moves bytes from the reader to the window and loses none |
| YamlDocuments.Scanner.Scan | pkg/custom-resource/components/loader/local.go:145-155 | chunk independence: however the reads are cut, a scan returns the next document of the whole remaining input; and what it does after the limit was hit |
| YamlDocuments.EveryDocumentCounts | pkg/custom-resource/components/loader/local.go:116-139 | components + errors + documents of other kinds = documents |
| YamlDocuments.ComponentsInOrder | pkg/custom-resource/components/loader/local.go:128-138 | the components are those of the documents of kind Component, each once and in document order |
| YamlDocuments.FailuresInOrder | pkg/custom-resource/components/loader/local.go:123-126 | the errors are those of the documents that do not parse, each once and in document order |
| YamlDocuments.DecodeYaml | pkg/custom-resource/components/loader/local.go:112-142 | the loop stops if and only if all documents fit the limit, after one turn per document and one for the end; components and errors are the order-keeping images of the good and the failing documents |
| YamlDocuments.LongLineOverflows | pkg/custom-resource/components/loader/local.go:145-184 | a line of 65536 bytes without newline yields no document and runs into the limit; with one byte less it is a document |
| YamlLines.SplitterMeetsReference | pkg/custom-resource/components/loader/local.go:158-184 | on every text the streaming splitter hands out exactly the documents of a definition by lines, and runs into its limit exactly when a document with its separator line is too long |
| YamlLines.OnlyAnUnfinishedSeparatorLoses | pkg/custom-resource/components/loader/local.go:167-177 | documents and separator lines, in order, are a front part of the input, and all of it if and only if the input does not end inside a separator line with more than dashes |
| YamlLines.TailIsLost | pkg/custom-resource/components/loader/local.go:167-177 | a text of seven bytes whose only document is lost |
| YamlLines.SplitUndoesJoin | pkg/custom-resource/components/loader/local.go:158-184 | joining documents with newline, three dashes, newline and splitting gives them back if and only if none contains a separator, the last is not empty and each fits |
| Placeholders.PiecesAreTheText | pkg/custom-resource/components/loader/local.go:190-192 | the pieces joined by placeholders are the original text, and no piece contains a placeholder |
| Placeholders.UuidSeals | pkg/custom-resource/components/loader/local.go:190-192 | replacing the first placeholder by a uuid never creates a new one, not even across the seam |
| Placeholders.Expand | pkg/custom-resource/components/loader/local.go:190-192 | the replace-first loop ends and equals one pass: each original placeholder becomes the next uuid, all other text stays, no placeholder is left |
| Placeholders.ConvertMetadataItems | pkg/custom-resource/components/loader/local.go:186-196 | the properties are the expanded items in order, each with its own uuids, and none contains a placeholder |
| Placeholders.FillAt | pkg/custom-resource/components/loader/local.go:190-192 | between two pieces of a value stands the uuid of its own number |
| Placeholders.OwnUuids | pkg/custom-resource/components/loader/local.go:188-194 | different items draw their uuids from ranges that do not overlap, so no two placeholders share one |
| Placeholders.LastItemWins | pkg/operator/server.go:72-82 | the last item of a name gives the property its value |
| Placeholders.OnlyItemNames | pkg/operator/server.go:72-82 | every property comes from an item of its name |
| JsonPatch.IndexRoundTrip | pkg/injector/pod_patch.go:184 | a printed container index is read back as the same array index |
| JsonPatch.PointerRoundTrip | pkg/injector/pod_patch.go:134-160 | a pointer printed from tokens without slash and tilde is read back as these tokens |
| JsonPatch.ParseIndexIff | pkg/injector/pod_patch.go:184 | an array index is exactly the decimal notation of a number (section 4 of RFC 6901) |
| JsonPatch.PointerIff | pkg/injector/pod_patch.go:71-76 | a text is a pointer with these tokens exactly when it is the tokens, escaped, each behind a slash (sections 3 and 4 of RFC 6901) |
| JsonPatch.AddInserts | pkg/injector/pod_patch.go:71-76 | adding at an array index inserts, and fails behind the end (section 4.1 of RFC 6902) |
| JsonPatch.ApplyConcat | pkg/injector/pod_patch.go:151-164 | applying appended operation lists is applying one after the other, up to the first error |
| PodPatch.GetEnvPatchOperations | pkg/injector/pod_patch.go:193-223 | one operation that starts the list for a container without variables, else one append for each variable whose name is not in use |
| PodPatch.AddRusiEnvVarsToContainers | pkg/injector/pod_patch.go:175-189 | the operations of all containers in order, each at its own index |
| PodPatch.PodContainsSidecarContainer | pkg/injector/pod_patch.go:236-248 | found if and only if a container or init container has the sidecar's name |
| PodPatch.GetPodPatchOperations | pkg/injector/pod_patch.go:78-167 | the method computes the patch that the results below are about, or the error for an undecodable pod or an empty app id |
| PodDecision.ToLowerIff | pkg/injector/pod_patch.go:270-278 | a text in small letters is the other one in any letter case, character by character |
| PodDecision.PatchDecision | pkg/injector/pod_patch.go:78-167 | for every raw object: an error if it does not decode; nothing unless its annotation says y, yes, true, on or 1 in any letter case and no container is called rusid; an error if it asks and has neither app id nor name; else a patch that is not empty |
| PodDecision.UnaskedPodsAreLeftAlone | pkg/injector/pod_patch.go:101-103 | a pod without the annotation gets no patch |
| PodPatch.SidecarStep | pkg/injector/pod_patch.go:131-149 | the first operation puts the sidecar behind its list or starts the list, and applies exactly when the pod has a spec |
| PodPatch.LabelStep | pkg/injector/pod_patch.go:158-162 | the label operation applies exactly when there is a labels object, and changes nothing but that label |
| PodPatch.PortsStep | pkg/injector/pod_patch.go:175-189 | the environment operations apply exactly when no container is null, and give each container its port variable |
| PodPatch.PatchMeaning | pkg/injector/pod_patch.go:101-166 | for every enabled pod without sidecar and with an app id, the patch applies if and only if the pod has spec and labels and no null container, and then yields the original pod with one sidecar at the end of its list, the label and the port variables |
| PodPatch.UnlabelledPodFails | pkg/injector/pod_patch.go:151-166 | an enabled pod without labels gets a non-empty patch, which fails |
| PodPatch.PortKeepsUserValues | pkg/injector/pod_patch.go:191-223 | a patched container keeps its name, its variables in order and every other member, and gains the port variable only if it lacked it |
| PodDecision.PortIff | pkg/injector/pod_patch.go:175-223 | a container that brings the variable stays as it is; any other gets the one variable RUSI_GRPC_PORT with the value 50003 behind its own, and keeps all else |
| PodDecision.InjectedMembers | pkg/injector/pod_patch.go:131-162 | the injected pod differs from the original in the label app-runtime, which is rusi, and in its two container lists, and in no other member |
| PodDecision.InjectedContainers | pkg/injector/pod_patch.go:125-149 | every container keeps its place and gets its port variable, and the sidecar is at the end of exactly one list |
| PodPatch.PatchedOnlyOnce | pkg/injector/pod_patch.go:101-103 | on the patched pod the generator emits nothing, whichever way it injects |
| Component.IndexIsLast | pkg/runtime/components_manager.go:77-112 | under every key the index holds the last accepted spec with that key, and the notifications are the announced entries in order |
| Component.LookupIsLastAccepted | pkg/runtime/components_manager.go:153-162 | getComponent gives a pair's last accepted spec, unless a later spec of another pair has the same key, and then nothing |
| Component.KeyIsInjective | pkg/runtime/components_manager.go:215-217 | for types without a dash the key determines type and name |
| Component.DashesCollide | pkg/runtime/components_manager.go:191-217 | a stream of two accepted specs with one key, after which the first one's pair is not found |
| Component.IndexProtocol | pkg/runtime/components_manager.go:77-112 | for types without a dash: a pair is found as its last accepted spec, its first accepted spec is an Insert, all later ones are Updates |
| Component.InsertThenUpdates | pkg/runtime/components_manager.go:107-111 | for types without a dash, only the first notification of a pair can be an Insert; every later one is an Update |
| Component.ResendChangesNothing | pkg/runtime/components_manager.go:80-83 | re-sending a pair with unchanged metadata changes no spec, no instance and no notification |
| InstanceHistory.CategoryIff | pkg/runtime/components_manager.go:206-213 | a type has a category exactly when the category's name stands before its first dot |
| InstanceHistory.AcceptedIff | pkg/runtime/components_manager.go:80-105 | a spec is accepted exactly when its type has a category and its pair is not found or was last accepted with other metadata |
| Component.Conservation | pkg/runtime/components_manager.go:114-151 | while calls succeed, created = closed + live + overwritten, and every indexed pub/sub has a live instance |
| Component.InstanceLifecycle | pkg/runtime/components_manager.go:77-151 | while nothing is overwritten, a name's instance log is the lifecycle of its accepted specs: close the predecessor, create, initialise once |
| InstanceHistory.InitialisedWithConsumer | pkg/runtime/components_manager.go:126-144 | over all streams and outcomes, every instance is initialised right after its creation, with the app id as consumerID and for the rest with exactly the metadata of an accepted spec of its name |
| InstanceHistory.StepEvents | pkg/runtime/components_manager.go:114-151 | the calls for one accepted spec: close, create and init in this order, up to the first that fails |
| InstanceHistory.InstancesFollowHistory | pkg/runtime/components_manager.go:114-151 | over all streams and outcomes, the numbers of created and closed instances and the instance in the table, from the accepted specs and how their calls went |
| Component.ClosedExactlyOnce | pkg/runtime/components_manager.go:114-151 | in a lifecycle each instance is created at most once, the live one is not closed, and every other one is closed exactly once |
| Component.UniqueNamesOverwriteNothing | pkg/runtime/components_manager.go:114-151 | with one type per pub/sub name and no dash in types, no instance is ever overwritten |
| Component.LifecycleOfUniqueNames | pkg/runtime/components_manager.go:77-151 | then the live instance of every name is the one of its latest accepted spec, and created = closed + live |
| Component.AnnouncedIff | pkg/runtime/components_manager.go:107-151 | an accepted pub/sub spec is announced exactly when create and init succeed and so does the close of the instance an update finds; any other accepted spec always is |
| Component.StaleIff | pkg/runtime/components_manager.go:107-151 | over every stream, whatever fails: a name has an instance exactly when one of its pub/sub entries was announced, and that instance is closed exactly when an update of the name came since and failed |
| Component.StaleHappens | pkg/runtime/components_manager.go:107-151 | a stream of two specs, one create failing, that leaves a closed instance in the table, and a third that closes it again |
| Component.StaleIsClosedAgain | pkg/runtime/components_manager.go:114-125 | the next accepted update closes such an instance a second time |
| ManagerObject.ComponentsManager.constructor | pkg/runtime/components_manager.go:48-57 | a new manager has no component, no instance and no notification |
| ManagerObject.ComponentsManager.GetComponent | pkg/runtime/components_manager.go:153-162 | the scan gives the same answer in whatever order the map is walked |
| ManagerObject.ComponentsManager.CloneFor | pkg/runtime/components_manager.go:133-139 | an instance gets a new map with consumerID = app id and for the rest exactly the spec's metadata; the spec's own map is not written |
| ManagerObject.ComponentsManager.InitPubSub | pkg/runtime/components_manager.go:126-151 | the object follows the model on values, for every outcome of create and init |
| ManagerObject.ComponentsManager.UpdatePubSub | pkg/runtime/components_manager.go:114-125 | the object follows the model on values: the old instance is closed first, and a failed close ends the update |
| ManagerObject.ComponentsManager.AddOrUpdateComponent | pkg/runtime/components_manager.go:77-112 | one update of the object, shared maps included, is one step of the model on values, and the spec's metadata map stays untouched |
| ManagerObject.ComponentsManager.StoreComponent | pkg/runtime/components_manager.go:191-195 | the spec is indexed under its key and nothing else changes |
| ManagerObject.ComponentsManager.PublishChange | pkg/runtime/components_manager.go:196-204 | one notification is added behind the others |
| InMemoryBus.Append | pkg/messaging/inmemory.go:41 | append adds one element behind the slice, in place or in a new array, and what the old slice shows stays |
| InMemoryBus.Filtered | pkg/messaging/inmemory.go:47-52 | the close function's loop builds a new slice without its handler and writes no old array |
| InMemoryBus.Bus.Publish | pkg/messaging/inmemory.go:22-34 | the snapshot is the handlers subscribed and not closed at this moment, in subscription order |
| InMemoryBus.Bus.RunHandlers | pkg/messaging/inmemory.go:77-102 | exactly the handlers of the snapshot run, whatever was appended or closed since |
| InMemoryBus.Bus.Subscribe | pkg/messaging/inmemory.go:36-41 | one more handler for the topic; all snapshots keep what they saw although the array may be shared |
| InMemoryBus.Bus.Close | pkg/messaging/inmemory.go:44-57 | one handler less for the topic; all snapshots keep what they saw |
| InMemoryBus.LiveIsStillOpen | pkg/messaging/inmemory.go:36-58 | the list maintained by appends and filters is the handlers subscribed and not closed since, in order |
| InMemoryBus.ClosingTwice | pkg/messaging/inmemory.go:44-57 | closing takes away only its own handler, and closing twice equals closing once |
| Pipeline.Build | pkg/messaging/pipeline.go:9-14 | the downward loop is a right fold: the first registered middleware is outermost |
| Pipeline.NestConcat | pkg/messaging/pipeline.go:9-14 | building a concatenation is building the back part inside the front part |
| Pipeline.WellNested | pkg/messaging/pipeline.go:9-14 | for all middlewares that call the next handler once, whatever they do before and after: ways in come in registration order, ways out in reverse, the handler between them |
| Pipeline.PipelinePassesErrors | pkg/messaging/pipeline.go:9-14 | if every middleware returns the inner handler's error, the pipeline returns the client handler's error |
| Pipeline.SubscriberService.UseMiddleware | pkg/messaging/pipeline.go:16-18 | one more middleware, inside all earlier ones |
| Pipeline.SubscriberService.StartSubscribing | pkg/runtime/service/subscriber.go:20-38 | the callback is the user middlewares around metrics around tracing around the client handler, and the two stay in the pipeline |
| Pipeline.CallbackError | pkg/runtime/service/subscriber.go:29-38 | with user middlewares that pass errors on, the broker callback sees the client handler's error |
| Pipeline.SubscriberOrder | pkg/runtime/service/subscriber.go:20-38 | a message meets the user middlewares, whatever they do before and after the next handler, then metrics, tracing, the client handler and the way back |
| EndToEnd.NoInventedBrokerAcks | pkg/runtime/service/subscriber.go:29-38 | through any user middlewares that pass errors on, after any run of the stream, each broker ack for a message id belongs to its own positive client ack for it, and there are never more of them |
| EndToEnd.SwallowedErrorsInventAcks | pkg/messaging/jetstream/jetstream.go:217-224 | with a middleware that swallows errors the broker acknowledges a message no client has acked |
| NatsOptions.ConversionsCancel | pkg/messaging/nats/nats.go:410-412 | an int32 survives the conversions to uint64 and back to int, negative values included, and only zero counts as unset |
| NatsOptions.ParseMetadata | pkg/messaging/nats/nats.go:71-177 | exactly which metadata is accepted, and every option it sets |
| NatsOptions.ParseStart | pkg/messaging/nats/nats.go:122-176 | only the first start option present is looked at, it alone is set, and it alone can be refused |
| NatsOptions.FirstOneIsChosen | pkg/messaging/nats/nats.go:122-174 | of startAtSequence, startWithLastReceived, deliverAll, deliverNew, startAtTimeDelta, connectWait and startAtTime the first that counts is chosen |
| NatsOptions.RefusedMetadata | pkg/messaging/nats/nats.go:75-118 | metadata with a missing key, an unknown subscription type, a bad ack wait or a bad limit is refused |
| NatsOptions.Merge | pkg/messaging/nats/nats.go:382-425 | the whole merged options: what a request overrides, and that it changes nothing else; it fails exactly when a queue group is asked for and none is known |
| NatsOptions.Translate | pkg/messaging/nats/nats.go:308-348 | the exact option list: durable name, one start option, manual ack, ack wait and limit, or the start time's parse error |
| NatsOptions.StartAgrees | pkg/messaging/nats/nats.go:315-334 | parse, merge and switch together choose the start position stated end to end: a request for new messages wins, a request for all gives way to new messages, sequence or last received in the metadata |
| NatsOptions.OneOfEach | pkg/messaging/nats/nats.go:308-348 | every option list has exactly one manual ack and at most one start option and one limit |
| NatsOptions.Subscribe | pkg/messaging/nats/nats.go:233-277 | from metadata and request to the broker call: the error in each failing case, else the exact option list, topic or queue, and the group of the metadata |
| NatsOptions.AcceptedButNoSubscription | pkg/messaging/nats/nats.go:233-281 | the least metadata that is accepted gives no subscription to a request without options |
| NatsOptions.SubscriptionPromises | pkg/messaging/nats/nats.go:308-425 | by what metadata and request say: new-only requests always win, all-messages requests win unless the metadata chose otherwise, a requested concurrency is a limit exactly when it is not zero, and which durable name and ack wait are in the list |

## Left out

- YamlDocuments.DecodeYaml: takes a budget of loop turns that the source does not have, because the source loops for ever on a document over the limit; every statement is for all budgets.
- YamlDocuments.Scanner.Read: a read delivers at least one byte or the end of input; empty reads, reader errors and the scanner's growing buffer are not modelled, only its limit.
- Pipeline.SubscriberOrder: is about middlewares that call the next handler once with the same message; one that drops, repeats or rewrites a message has no such order.
- EndToEnd.NoInventedBrokerAcks: a handler is a function of the delivery; panics in middlewares are not modelled.
- PodPatch.PatchedOnlyOnce: is about sidecars that decode as a container, as the sidecar the injector builds does.
- Component.LifecycleOfUniqueNames: is about calls that succeed; what failing calls do is stated by AnnouncedIff, StaleIff and StaleIsClosedAgain.
- ManagerObject.ComponentsManager.AddOrUpdateComponent: runs as one step; readers of the index between its lock sections are not modelled, and a sender that writes to a spec's map later is not either.
- InMemoryBus.Bus.RunHandlers: starts the handlers in order; their concurrent execution, the time limit on their context, the working counter and the write to the message's headers are not modelled.
- SubscriptionRefresh.RefreshCompletes: bounds the steps of the call and says that one is enabled, not that the scheduler takes it. The model claims no liveness beyond what is reachable, here and in the other interleaved systems.
- WatcherSteps.QuietIsUpToDate: every listener has the current versions; that they arrive last is not claimed, because each send is its own goroutine and the code gives no order.
- The preference of Go's read-write lock for waiting writers: it only removes interleavings, and what is stated of every run holds of those that are left. A Refresh or replay blocked behind a waiting writer is not a separate case.
- Delete events of the operator's informers: they only log.
- Calls into NATS, JetStream, gRPC, Kubernetes and OpenTelemetry: they are events that happen or fail. A pull error also closes the connection, which only makes other pulls fail.
- Parsing of YAML, JSON strings, numbers, durations and times, and uuid generation: parameters, with the one fact that a uuid has 36 characters and no brace.
- The order of JSON object members and duplicate member names: an object is a map.
- Case-insensitive matching of JSON member names and members of a pod that the generator does not read: a pod that fails to decode for such a reason fails before anything modelled here.
- The sidecar container's ports, probes, resources, arguments and token mount: the sidecar is any JSON object with the right name.
- Logging, metrics, tracing, health checks, flags, environment variables, TLS, HTTP and file reading.
- The gRPC publish path (unmarshalling and one call of the broker), the start-up in `pkg/runtime/runtime.go`, the registries (maps from names to factories), configuration validation and generated code.
- The scopes of a component spec, the broker's durable and consumer naming in JetStream, and the random client id in NATS.
