# Verification of the asteroid-mq server core

A Dafny 4.11 model of the parts of asteroid-mq that decide what happens to a message: the replicated topic
state machine, the interest index, snapshots of the node's state, the durable command queue and the TCP framing
of edge connections. `dafny verify dfyconfig.toml` checks all of it.

## What is modelled

**Topic.** A topic holds messages in push order. Each held message has a status per endpoint. The Raft log
delegates messages, sets states, takes endpoints online and offline and replaces their interests. A step may
dispatch messages, emit ack results and append durable commands. `Topics.dfy` gives each step as a function
of the topic and of an environment `Env`: the node id, the clock (read once per step), and the orders in which
hash sets are walked (the messages to poll, the candidates of a push). `Admissible` says that those orders are
orders of the right sets, and nothing more. A topic carries the history of what it emitted: `Dispatch` for one
`send_unsent` call, `Refuse` and `Leave` for the two uses of `resolve_ack` (a message that never entered the
queue, a message that leaves it), and the durable commands.

**The classes.** `MessageQueues.MessageQueue` has the fields of the repository's queue (held messages by id,
an ordered set of timed ids, times by id, the resolved cache, the size), `InterestMaps.TrieNode` and
`InterestMaps.InterestMap` are the glob trie in the heap, `TopicDatas.TopicData` is the topic,
`NodeDatas.NodeData` and `NodeDatas.StateMachineData` are the node. Their methods have the loops and branches
of the source and are proved to do exactly what the step functions say, so what is proved about runs of the
functions holds of the classes. `Contexts.ProposalContext` records what a proposal asks of the node.

**The theorems** are about single steps (`Outcomes.dfy` writes out all that a step does, `Effects.dfy` what it
achieves) and about every run: what every step keeps (`Ledger.dfy`, `Fates.dfy`), agreement of replicas
(`Agreement.dfy`, `Clocks.dfy`, `Nodes.dfy`), at-most-once dispatch over the whole cluster (`AtMostOnce.dfy`),
what an ack result means (`AckSoundness.dfy`), what becomes of the status of an endpoint (`Statuses.dfy`), when
nothing is left undone (`NoStall.dfy`), the durable store following the queue (`DurableReplay.dfy`), snapshots of
a node's own and of other nodes (`Snapshots.dfy`, `Nodes.dfy`, `Histories.dfy`, `SnapshotSends.dfy`), the index
equal to a scan of the interests' texts (`Tries.dfy`, `Globs.dfy`, `Texts.dfy`), and framing (`Frames.dfy`,
`Connections.dfy`).

`NodeDatas.StateMachineData.Live` ties classes and functions together for whole lives of a node, entries and
snapshots alike. What it asks for can be read from the log (`Lives.FreshLife`).

**What fails.** Some properties that one might expect fail. Each has its exact condition, and a run from an
empty topic that breaks it (`Witnesses.dfy`): at-most-once dispatch when the host of an endpoint installs
another node's snapshot (`SnapshotSends.InstallIsSafeIff`), nothing left undone between two steps
(`NoStall.StepQuiet`), the durable store equal to the queue under drop-old (`DurableReplay.StoreFollowsQueue`),
success for an endpoint that reached the level asked for (`Statuses.ReachedFailsIff`), statuses that never go
back (`Statuses.AckFallsBackIff`), agreement of replicas whatever their clocks (`Clocks.ReplicasAgreeIff`), and
a result for every message that comes to a node (`Fates.NodeConservation`). Packets sent over TCP arrive only
where a machine word has four bytes (`Connections.Transmit`).

**Hypotheses.** The code compares timed ids by time only, so pushing keeps the queue's indexes coherent exactly
when the id is new and the time is not in use (`QueueIndex.PushLinks`); push order is time order when clocks
increase past the times that were loaded. The classes ask for this; the theorems that need fresh ids say so.
Acks on the wire never say `Unsent`; an endpoint goes online under one host (both in `AtMostOnce.Lawful`).
Endpoint hashes are distinct where a push must choose the same target everywhere. Clocks of replicas may differ
as long as no expiry time lies between them.

**Where code and comments differ**, the code is followed. `SubjectSegments` says that what it iterates over never
starts with a slash; a subject that does yields one empty first segment, so the interest with the same text
does not find it. The grammar given for interests allows `**` before another wildcard; such an interest never
matches. The table in `update_ack` looks as if it prevented a status from going back; only a status that is
resolved is kept, every other is overwritten (`Statuses.AckFallsBackIff`), and `ep_offline` overwrites resolved
ones too (`Statuses.ResolvedStaysIff`).

## Model

| member | source | states |
|---|---|---|
| Segments.SubjectIterator.Next | model/src/interest.rs:79-110 | one call yields the bytes up to the next slash and skips the whole run of slashes after it |
| Segments.SubjectSegmentsAreSplit | model/src/interest.rs:76-111 | the iterator ends and yields the non-empty pieces between slashes, after one empty segment exactly when the subject starts with a slash |
| Segments.SplitIsPieces | model/src/interest.rs:144-145 | splitting cuts a text into pieces without slashes that give the text again when they are joined by slashes |
| Texts.ClassifyIff | model/src/interest.rs:144-156 | a piece whose text, without the ASCII blanks around it, is one star stands for one segment, two stars for any number of them, any other piece for that text |
| Texts.SearchIsTextual | server/src/protocol/interest.rs:107-131 | the search finds an interest by a subject exactly when their texts match: a piece of one star one segment, of two stars one or more, any other its trimmed text, and after two stars no piece of stars |
| Globs.SearchIsSound | server/src/protocol/interest.rs:107-131 | the search path reports nothing that the glob does not match, for any interest |
| Globs.SearchIsComplete | server/src/protocol/interest.rs:107-131 | it reports every match of an interest in which each `**` is last or followed by a literal |
| Globs.MisplacedNeverFound | server/src/protocol/interest.rs:113-120 | an interest with a wildcard right after `**` matches nothing |
| Globs.SearchIsPlacedGlob | server/src/protocol/interest.rs:107-131 | it reports a match exactly when the glob matches and each `**` is last or followed by a literal |
| Globs.SearchIsGlobIff | server/src/protocol/interest.rs:107-131 | the interests for which search and glob agree on every subject are exactly those |
| Globs.SameTextFoundIff | model/src/interest.rs:144-156 | an interest of literals is found by the subject with the same text exactly when the text does not start with a slash |
| Tries.InsertLookup | server/src/protocol/interest.rs:51-80 | inserting adds the value at the end of that path and nowhere else |
| Tries.DeleteLookup | server/src/protocol/interest.rs:81-106 | deleting removes the value from the end of that path and nowhere else |
| Tries.FindIsStored | server/src/protocol/interest.rs:107-131 | a value is found exactly when it is stored at the end of a path that the search matches |
| Tries.FindIsScan | server/src/protocol/interest.rs:161-166 | in a coherent index a search returns what a scan of the plain map returns |
| Tries.InsertKeepsValid | server/src/protocol/interest.rs:155-159 | inserting keeps trie and plain map coherent |
| Tries.DeleteKeepsValid | server/src/protocol/interest.rs:168-175 | deleting keeps them coherent although interests share paths and emptied nodes stay, and removes the value from the plain map |
| Tries.FromRawIsValid | server/src/protocol/interest.rs:143-153 | the trie rebuilt from a plain map is coherent with it |
| Tries.IndexEqualsScan | server/src/protocol/interest.rs:133-180 | after any run of inserts, deletes and rebuilds a search returns exactly the endpoints that have declared and not withdrawn an interest whose text matches that of the subject |
| Tries.InterestReplacement | server/src/protocol/node/raft/state_machine/topic.rs:160-163 | replacing interests makes the endpoint findable by exactly the new ones and changes no other endpoint's results |
| Tries.EverythingIsFound | server/src/protocol/interest.rs:107-131 | an endpoint with the interests `**` and the empty one is found by every subject |
| InterestMaps.TrieNode.InsertRecursive | server/src/protocol/interest.rs:51-80 | the insertion in the heap changes the tree as the insertion on values does, and keeps the nodes a tree |
| InterestMaps.TrieNode.DeleteRecursive | server/src/protocol/interest.rs:81-106 | the same for deletion, which removes no node |
| InterestMaps.TrieNode.FindAllRecursive | server/src/protocol/interest.rs:107-131 | the recursive search with its inner loop adds to the collector exactly what the search on values finds |
| InterestMaps.InterestMap.Insert | server/src/protocol/interest.rs:155-159 | the map becomes the old one with the interest inserted |
| InterestMaps.InterestMap.Find | server/src/protocol/interest.rs:161-166 | it returns what a scan of the plain map returns |
| InterestMaps.InterestMap.Delete | server/src/protocol/interest.rs:168-175 | the map becomes the old one without the endpoint, whatever order its interests are walked in |
| InterestMaps.InterestMap.FromRaw | server/src/protocol/interest.rs:143-153 | the rebuilt map has the given plain map and its trie, whatever order that is walked in |
| InterestMaps.DeleteAllAny | server/src/protocol/interest.rs:168-175 | any interest may be deleted first |
| InterestMaps.LoadAny | server/src/protocol/interest.rs:143-153 | any endpoint may be loaded first |
| QueueIndex.InsertTimedIs | server/src/util.rs:42-46 | an ordered set of timed ids keeps one element for each time: an insertion at a time in use changes nothing |
| QueueIndex.PushLinks | server/src/protocol/node/raft/state_machine/topic/message_queue.rs:129-136 | a push keeps the indexes coherent and the size right exactly when the id is new and the time is not in use |
| QueueIndex.RemoveLinks | server/src/protocol/node/raft/state_machine/topic/message_queue.rs:175-185 | a removal keeps the indexes coherent and takes that message out of the list |
| QueueIndex.ListedOnce | server/src/protocol/node/raft/state_machine/topic/message_queue.rs:107-115 | in a coherent queue each held message is listed once |
| MessageQueues.SendUnsent | server/src/protocol/node/raft/state_machine/topic/message_queue.rs:50-62 | exactly the unsent reachable endpoints are sent to and marked sending, in whatever order the statuses are walked |
| MessageQueues.MessageQueue.Push | server/src/protocol/node/raft/state_machine/topic/message_queue.rs:129-136 | coherent afterwards exactly when id and time are new; pushed later than all others the message comes last |
| MessageQueues.MessageQueue.PushDurableMessage | server/src/protocol/node/raft/state_machine/topic/message_queue.rs:137-159 | the same for a stored message, held with its own statuses, under its own time, at the level it asks for |
| MessageQueues.MessageQueue.Pop | server/src/protocol/node/raft/state_machine/topic/message_queue.rs:160-169 | takes the first message out of the list, the indexes and the cache, and finds one in every queue that is not empty |
| MessageQueues.MessageQueue.GetFront | server/src/protocol/node/raft/state_machine/topic/message_queue.rs:170-174 | the message pushed first |
| MessageQueues.MessageQueue.Remove | server/src/protocol/node/raft/state_machine/topic/message_queue.rs:175-185 | takes out the message with the id and leaves the others in order |
| MessageQueues.MessageQueue.UpdateAck | server/src/protocol/node/raft/state_machine/topic/message_queue.rs:186-226 | a resolved status is kept, any other is overwritten, a new endpoint is added, no other message changes |
| MessageQueues.MessageQueue.PollMessageInner | server/src/protocol/node/raft/state_machine/topic/message_queue.rs:244-265 | only the front of a blocking queue is polled; the polled message is sent where it can be, and ready exactly when that resolves it |
| MessageQueues.MessageQueue.PollMessage | server/src/protocol/node/raft/state_machine/topic/message_queue.rs:228-243 | polling with the cache is polling without it, and the cache stays fresh |
| MessageQueues.MessageQueue.BlockingPop | server/src/protocol/node/raft/state_machine/topic/message_queue.rs:275-287 | the front is sent where it can be and leaves exactly when that resolves it |
| MessageQueues.MessageQueue.FlushBlocking | server/src/protocol/node/raft/state_machine/topic/message_queue.rs:294-300 | the loop drains the queue from the front: while the front is resolved it leaves, with its result and its archive command |
| MessageQueues.MessageQueue.FlushResolved | server/src/protocol/node/raft/state_machine/topic/message_queue.rs:301-309 | the loop takes out exactly the cached messages, each with its result and its archive command, in some order |
| MessageQueues.SettleReadyFront | server/src/protocol/node/raft/state_machine/topic/message_queue.rs:275-300 | a front that was polled and cached leaves as if it had been polled once |
| MessageQueues.SettleReady | server/src/protocol/node/raft/state_machine/topic/message_queue.rs:228-243 | the same for any message of a queue that is not blocking |
| MessageQueues.MessageQueue.Flush | server/src/protocol/node/raft/state_machine/topic/message_queue.rs:288-310 | a blocking queue is drained from the front; otherwise exactly the cached messages leave, each with one result and one archive command; the cache is empty afterwards |
| MessageQueues.MessageQueue.PollAndFlush | server/src/protocol/node/raft/state_machine/topic.rs:146-152 | from an empty cache, poll and flush are one settlement of the list of held messages and leave the cache empty |
| HoldQueue.SettleUnion | server/src/protocol/node/raft/state_machine/topic/message_queue.rs:228-310 | polling one set of messages and then another is polling both at once |
| HoldQueue.WalkIsSettle | server/src/protocol/node/raft/state_machine/topic.rs:181-183 | polling one by one in any order ends in the same queue and emits the same events, in a blocking topic in the same order |
| HoldQueue.Confluence | server/src/protocol/node/raft/state_machine/topic.rs:219-221 | two walks over the same set have the same outcome |
| Statuses.AckTakenIff | server/src/protocol/node/raft/state_machine/topic/message_queue.rs:186-226 | an ack changes a status exactly where it names an endpoint whose status is not resolved and says something else |
| Statuses.AckFallsBackIff | server/src/protocol/node/raft/state_machine/topic/message_queue.rs:197-224 | an ack makes a status go back exactly when the status is not resolved and the ack says less |
| Witnesses.FallsBackRun | server/src/protocol/node/raft/state_machine/topic/message_queue.rs:186-226 | a run from an empty topic in which an endpoint that received the message is listed as having been sent it, after a late ack |
| Statuses.StepFallsBackIff | server/src/protocol/node/raft/state_machine/topic.rs:62-246 | no step but such an ack makes the status of a message that stays held go back |
| Statuses.ResolvedStaysIff | server/src/protocol/node/raft/state_machine/topic.rs:224-246 | a resolved status of a message that stays held survives a step unless the endpoint goes offline in it; then it is unreachable |
| Statuses.ResolvedIsReported | server/src/protocol/node/raft/state_machine/topic/message_queue.rs:83-100 | after any run of a loaded topic, and over any further run, the result of a message reports a status that was resolved as it was, or as unreachable if the endpoint went offline while the message was held |
| Statuses.ReachedFailsIff | server/src/protocol/node/raft/state_machine/topic.rs:224-246 | an endpoint that reached the level asked for is reported as failed, and the result is a failure, exactly if it went offline after that while the message was held |
| Witnesses.FailedRun | server/src/protocol/node/raft/state_machine/topic.rs:224-246 | a run from an empty topic in which this happens |
| Topics.StepConfluence | server/src/protocol/node/raft/state_machine/topic.rs:154-246 | the walk order of an endpoint proposal changes neither the final state nor, up to order, what is emitted |
| Topics.SortByTimeSorts | server/src/protocol/node/raft/state_machine/topic.rs:32-33 | stored messages are loaded in the order of their times, none lost |
| Topics.SortIsStable | server/src/protocol/node/raft/state_machine/topic.rs:33 | messages with the same time stay in the order in which they are stored |
| Topics.LoadedExactly | server/src/protocol/node/raft/state_machine/topic.rs:32-51 | a loaded topic holds exactly the stored messages in the order of their times, each with its own statuses and the level it asks for, and has no routing, no interests and nothing emitted |
| TopicDatas.TopicData.FromDurable | server/src/protocol/node/raft/state_machine/topic.rs:32-51 | the loaded topic holds the stored messages sorted by time, each with its own statuses and level, with no routing and no interests |
| TopicDatas.TopicData.CollectAddrBySubjects | server/src/protocol/node/raft/state_machine/topic.rs:52-61 | the endpoints with an interest in one of the subjects |
| TopicDatas.HashRing | server/src/protocol/node/raft/state_machine/topic.rs:76-80 | the candidates, each once, sorted by hash |
| TopicDatas.TopicData.HoldNewMessage | server/src/protocol/node/raft/state_machine/topic.rs:62-129 | the topic steps as the function for a delegated message says: refusal, overflow, push, poll |
| TopicDatas.TopicData.PutInQueue | server/src/protocol/node/raft/state_machine/topic.rs:100-127 | the overflow policy and the push: refused, or the front dropped when full, then pushed, recorded and polled |
| TopicDatas.TopicData.UpdateAndFlush | server/src/protocol/node/raft/state_machine/topic.rs:136-153 | the topic steps as the function for a state update says |
| TopicDatas.TopicData.UpdateEpInterest | server/src/protocol/node/raft/state_machine/topic.rs:154-184 | the topic steps as the function for new interests says, for the walk that was taken |
| TopicDatas.TopicData.EpOnline | server/src/protocol/node/raft/state_machine/topic.rs:185-222 | the same for an endpoint that comes online; the routing table gets it under its host and is the same otherwise |
| TopicDatas.TopicData.EpOffline | server/src/protocol/node/raft/state_machine/topic.rs:224-246 | the same for an endpoint that goes offline; the routing table loses it under its host and is the same otherwise |
| TopicDatas.TopicData.EnlistNew | server/src/protocol/node/raft/state_machine/topic.rs:201-217 | in whatever order held messages are walked, exactly the durable ones that are wanted and do not list the endpoint get it as unsent, and these are to be polled |
| TopicDatas.TopicData.EnlistWanted | server/src/protocol/node/raft/state_machine/topic.rs:164-180 | the same for new interests, where all wanted ones are to be polled |
| TopicDatas.TopicData.CutOffHeld | server/src/protocol/node/raft/state_machine/topic.rs:235-242 | exactly the messages that list the endpoint list it as unreachable and are to be polled |
| TopicDatas.TopicData.PollEvery | server/src/protocol/node/raft/state_machine/topic.rs:243-245 | the ids are polled each once in some order, and the topic is polled as that walk says |
| NodeDatas.NodeData.ApplyToTopic | server/src/protocol/node/raft/state_machine/node.rs:26-38 | the topic makes the step, every other topic stays as it is, an unknown topic is ignored |
| NodeDatas.NodeData.ApplyLoadTopic | server/src/protocol/node/raft/state_machine/node.rs:39-70 | an absent topic is loaded from its stored messages, a loaded one stays as it is |
| NodeDatas.NodeData.ApplyUnloadTopic | server/src/protocol/node/raft/state_machine/node.rs:85-87 | the topic is removed and nothing else |
| NodeDatas.StateMachineData.ApplyEntry | server/src/protocol/node/raft/state_machine.rs:156-211 | one entry of the log: last applied id, membership and topics change as the state machine function says |
| NodeDatas.StateMachineData.ApplyAll | server/src/protocol/node/raft/state_machine.rs:143-213 | over a log of fresh ids and increasing clocks the indexes of every queue stay coherent with empty caches between entries, whatever the hash orders, and the run is one of the state machine function |
| NodeDatas.StateMachineData.Live | server/src/protocol/node/raft/state_machine.rs:84-285 | the same over a whole life, with snapshots taken and installed between entries |
| NodeDatas.StateMachineData.Follow | server/src/protocol/node/raft/state_machine.rs:244-285 | installing a snapshot that another node handed over makes the state that of the other node, keeps what this one has emitted, and the log can be gone on with |
| NodeDatas.StateMachineData.HandOver | server/src/protocol/node/raft/state_machine.rs:84-119 | a node between two entries hands over a snapshot that every node can follow |
| NodeDatas.StateMachineData.LiveAndFollow | server/src/protocol/node/raft/state_machine.rs:84-285 | coherence is kept over lives in which the node follows other nodes any number of times |
| Lives.FreshLifeFits | server/src/protocol/node/raft/state_machine.rs:143-285 | a life whose log delegates no id twice to a loaded topic and loads different ids and times delegates only ids that the topic does not hold, whatever the hash orders |
| Lives.InstalledTracks | server/src/protocol/node/raft/state_machine.rs:244-285 | the ids known of a snapshot are those of every node that installs it |
| NodeDatas.NodeData.Deserialize | server/src/protocol/interest.rs:194-205 | the node data read back has the stored topics, each with its trie rebuilt and its stored times, and shares no object between them |
| NodeDatas.StateMachineData.BuildSnapshot | server/src/protocol/node/raft/state_machine.rs:84-119 | what is stored is coherent and is the snapshot of the state machine function: last applied id, membership, and every topic, of its interests the plain map |
| NodeDatas.StateMachineData.InstallSnapshot | server/src/protocol/node/raft/state_machine.rs:244-285 | the state becomes that of the snapshot, in new objects, coherent, and with no time in a queue that was not stored |
| NodeDatas.StateMachineData.ReinstallSnapshot | server/src/protocol/node/raft/state_machine.rs:84-285 | a snapshot just built can be installed, reinstalls every topic rebuilt from its plain interests, and the log can be gone on with |
| Outcomes.StepWrittenOut | server/src/protocol/node/raft/state_machine/topic.rs:136-246 | every step but a delegation, in full: for each held message and endpoint the status noted, whether the message is polled (in a blocking topic: from the front, as far as those before are finished), to whom it is sent, whether it leaves and with what result; order kept, nothing else held or told |
| Outcomes.DelegateWrittenOut | server/src/protocol/node/raft/state_machine/topic.rs:62-129 | a delegation, in full: refusals, the dropped front, the message put behind the others and unsent for the interested endpoints, and how it fares if it is polled |
| Outcomes.CommandsWrittenOut | server/src/protocol/node/raft/state_machine/topic.rs:136-246 | the durable commands of a step: the acks as they came or an empty update for each message asked for, and an archive for each message that leaves |
| Outcomes.RoutingAfter | server/src/protocol/node/raft/state_machine/topic.rs:185-235 | what each node reaches after each proposal: an endpoint is added or taken under its host only, and nothing else changes |
| Outcomes.InterestsAfter | server/src/protocol/node/raft/state_machine/topic.rs:154-235 | coming online adds interests, new interests replace them, going offline withdraws them, nobody else's change |
| Outcomes.FoundAfter | server/src/protocol/node/raft/state_machine/topic.rs:52-61 | so what a subject finds after a step follows from the texts of the interests declared before it |
| Outcomes.CollectIsInterested | server/src/protocol/node/raft/state_machine/topic.rs:52-61 | the endpoints collected are those with an interest whose text matches that of any one of the subjects |
| Outcomes.PushTarget | server/src/protocol/node/raft/state_machine/topic.rs:72-94 | a push is for the interested endpoint that has as many others with smaller hashes as the hash of the message leaves when divided by their number |
| Outcomes.PushesSpread | server/src/protocol/node/raft/state_machine/topic.rs:72-94 | pushes go to the same endpoint exactly if their hashes leave the same remainder |
| Effects.DelegateDispatches | server/src/protocol/node/raft/state_machine/topic.rs:62-129 | all that delegating emits: refusal, or the dropped front of a full topic and then the dispatch to exactly the endpoints it is for that this node reaches, with success at once if it is for nobody or, when durable, expired or with all the receivers it may have; nothing in a blocking topic with others before it |
| Effects.AcksAreRecorded | server/src/protocol/node/raft/state_machine/topic.rs:136-153 | a message that is still held after a state update carries its acks, except where a status was resolved already |
| Effects.OnlineEnlists | server/src/protocol/node/raft/state_machine/topic.rs:185-222 | an endpoint that came online is reachable under its host and listed by every held durable message it wants |
| Effects.OnlineSends | server/src/protocol/node/raft/state_machine/topic.rs:185-222 | on its host, in a topic that is not blocking, no message that newly lists it is left unsent |
| Effects.OfflineForgets | server/src/protocol/node/raft/state_machine/topic.rs:224-246 | an endpoint that went offline is neither reachable under its host nor found, and listed as unreachable only; what reaches and what finds other endpoints is unchanged |
| Ledger.StepKeeps | server/src/protocol/node/raft/state_machine/topic.rs:62-246 | every step keeps the accounts of messages, the order of a blocking topic and the overflow bound |
| Ledger.RunKeeps | server/src/protocol/node/raft/state_machine/topic.rs:62-246 | so does every run |
| Ledger.Conservation | server/src/protocol/node/raft/state_machine/topic.rs:62-129 | every loaded or delegated message is held with no result emitted, or not held with exactly one |
| Fates.NodeConservation | server/src/protocol/node/raft/state_machine/node.rs:26-136 | over any log of a node, with snapshots at any points, every message that comes for a topic is held, or answered exactly once, or neither exactly if it was held when the topic was unloaded or delegated while it was not loaded |
| Witnesses.LostRun | server/src/protocol/node/raft/state_machine/node.rs:85-87 | a log that unloads a topic which holds a message, and one that delegates to a topic which is not loaded |
| Ledger.BlockingOrder | server/src/protocol/node/raft/state_machine/topic/message_queue.rs:244-300 | in a blocking topic messages leave exactly in push order, and one is dispatched only when all before it have left |
| Ledger.OverflowBound | server/src/protocol/node/raft/state_machine/topic.rs:100-126 | the queue never exceeds the larger of the configured size and the number of loaded messages |
| Agreement.RingIsUnique | server/src/protocol/node/raft/state_machine/topic.rs:76-80 | with distinct hashes the sorted candidates do not depend on the order they came in |
| Agreement.PushSelection | server/src/protocol/node/raft/state_machine/topic.rs:72-94 | a push goes to one interested endpoint, the same on every node |
| Agreement.SettleAgrees | server/src/protocol/node/raft/state_machine/topic/message_queue.rs:228-310 | polling on two nodes with different reach and clocks keeps their queues and results equal up to Unsent versus Sending |
| Agreement.StepAgrees | server/src/protocol/node/raft/state_machine/topic.rs:62-246 | one step keeps two replicas in agreement |
| Agreement.ViewMeans | server/src/protocol/node/raft/state_machine/topic.rs:136-246 | what it is to agree: the same messages in order, with the same statuses but for unsent versus sending, the same routing and interests, the same results for the same messages, the same durable commands |
| Agreement.ReplicaAgreement | server/src/protocol/node/raft/state_machine/topic.rs:62-246 | after the same log two replicas hold the same messages in order with the same statuses up to Unsent versus Sending, routing and interests, and have emitted the same results and durable commands |
| Clocks.PollOneIff | server/src/protocol/node/raft/state_machine/topic/message_queue.rs:63-82 | polled at two clocks a message fares the same exactly if both are on the same side of its expiry, or the number of its receivers decides |
| Clocks.StepAgreesIff | server/src/protocol/node/raft/state_machine/topic.rs:62-246 | one step keeps two replicas in agreement exactly if it polls no message that only the clock decides about and that has expired for one of them and not for the other |
| Clocks.ReplicasAgreeIff | server/src/protocol/node/raft/state_machine/topic.rs:62-246 | from the same stored messages two replicas agree after every step of a log exactly if no step polls such a message |
| Witnesses.ClockRun | server/src/protocol/node/raft/state_machine/topic/message_queue.rs:63-82 | a run of one proposal after which one node holds a message that the other has answered |
| AtMostOnce.RunPays | server/src/protocol/node/raft/state_machine/topic/message_queue.rs:50-62 | dispatches of a message to an endpoint are paid for by copies that were still unsent and by delegations |
| AtMostOnce.StepPays | server/src/protocol/node/raft/state_machine/topic.rs:136-222 | no step adds to what may still be dispatched except the delegation of the message itself; a node that is not the host dispatches nothing |
| AtMostOnce.ReplicaSends | server/src/protocol/node/raft/state_machine/topic/message_queue.rs:50-62 | a node dispatches a message to an endpoint at most once, and never when another node hosts it |
| AtMostOnce.AtMostOnceDispatch | server/src/protocol/node/raft/state_machine/topic.rs:136-222 | all nodes together, however far each has got in the log, dispatch a message to an endpoint at most once |
| SnapshotSends.OpenCanBeSent | server/src/protocol/node/raft/state_machine/topic.rs:185-222 | a held message that is open to an endpoint can be made to be sent to it, in a blocking topic too |
| SnapshotSends.InstallIsSafeIff | server/src/protocol/node/raft/state_machine.rs:244-273 | when the host of an endpoint installs a snapshot, it hands the message over at most once in all, whatever the log goes on with and with clocks that do not go back, exactly unless it did so before and the message is open to the endpoint in the snapshot: unsent, or durable and not listed yet |
| SnapshotSends.InstalledElsewhere | server/src/protocol/node/raft/state_machine.rs:244-273 | a node that does not host the endpoint sends nothing after installing |
| Witnesses.SnapshotSendsAgain | server/src/protocol/node/raft/state_machine.rs:244-273 | two nodes apply the same log from an empty topic, the host installs the other's snapshot, and sends a message a second time with the next ack |
| AckSoundness.AcksAreSound | server/src/protocol/node/raft/state_machine/topic/message_queue.rs:63-100 | an Ok result for a message that is not durable means no status is a failure or comes before the level asked for; a failure without exception means none is pending and one is failed or unreachable; an exception means overflow |
| AckSoundness.StepSound | server/src/protocol/node/raft/state_machine/topic/message_queue.rs:63-100 | every step keeps the results emitted so far sound |
| Levels.ReachedIsAtLevel | model/src/message.rs:94-114 | a status reaches a level exactly if it is no failure and comes no earlier than it in the order unsent, sending, sent, received, processed; exactly failed and unreachable are failures |
| NoStall.StepQuiet | server/src/protocol/node/raft/state_machine/topic.rs:62-246 | a step leaves nothing undone exactly when it neither brings online, here, an endpoint a held message waits for, nor pulls up in a blocking topic a message that could be sent or is resolved |
| NoStall.AwaitedStalls | server/src/protocol/node/raft/state_machine/topic.rs:192-222 | bringing an endpoint online where a held message waits for it does leave that message unsent |
| NoStall.NothingStalls | server/src/protocol/node/raft/state_machine/topic.rs:136-153 | in a topic started empty whose steps are such, no held message, or no front of a blocking topic, is ever resolved already or waits for a reachable endpoint |
| Witnesses.AwaitedRun | server/src/protocol/node/raft/state_machine/topic.rs:192-222 | a run from an empty topic in which an endpoint comes online and the message it is awaited for stays unsent |
| Witnesses.PulledUpRun | server/src/protocol/node/raft/state_machine/topic.rs:100-127 | a run in which a full blocking topic drops its front and the next message, which could be sent, is not |
| DurableReplay.StepDropsIff | server/src/protocol/node/raft/state_machine/topic.rs:72-126 | a step drops a message, the front, exactly when a message is delegated to a full topic that drops the oldest and is not a push without endpoint |
| DurableReplay.StoreFollowsQueue | server/src/protocol/node/raft/proposal.rs:60-114 | at every interleaving of steps and drains, carrying out the pending commands leaves exactly the held and the dropped ids; only the held ones if and only if no step of the run makes room by dropping |
| Witnesses.DroppedRun | server/src/protocol/node/raft/state_machine/topic.rs:114-126 | a run from an empty topic after which the store keeps more than the held ids |
| DurableReplay.StepMirrors | server/src/protocol/node/raft/state_machine/topic.rs:124-153 | every step keeps the commands issued so far equal, when carried out, to the held and the dropped ids |
| DurableReplay.DropFrontMirrors | server/src/protocol/node/raft/state_machine/topic.rs:114-120 | a message dropped to make room stays in the store |
| DurableReplay.LoadedFromStore | server/src/protocol/node/raft/proposal.rs:172-181 | this holds of every topic loaded from the store |
| DurableReplay.StoreIsQueue | server/src/protocol/node/raft/proposal.rs:60-114 | without the drop-old policy the store ends up with exactly the held ids |
| Snapshots.RebuiltIsSame | server/src/protocol/interest.rs:182-205 | a topic read back differs in the shape of its trie only |
| Snapshots.StepSame | server/src/protocol/node/raft/state_machine/topic.rs:62-246 | two topics that differ in the shape of the trie only make the same step, and may be walked in the same orders |
| Nodes.SnapshotTransparency | server/src/protocol/node/raft/state_machine.rs:84-119 | snapshots taken and installed at any points of a node's life change nothing but the shape of tries |
| Nodes.LogsAgree | server/src/protocol/node/raft/state_machine.rs:143-213 | two nodes that apply the same log agree on every topic |
| Nodes.NodeAgreement | server/src/protocol/node/raft/state_machine.rs:143-285 | they do so with snapshots of their own at any points |
| Histories.StepPast | server/src/protocol/node/raft/state_machine/topic.rs:62-246 | what a topic does and emits next does not depend on what it emitted before |
| Histories.InstalledHasState | server/src/protocol/node/raft/state_machine.rs:244-273 | right after a node with any past of its own installs another's snapshot it has the other's last applied id, membership and topics, with the same routing, raw interests and messages |
| Histories.InstalledFollows | server/src/protocol/node/raft/state_machine.rs:143-285 | from then on, over every further log, on different clocks and hash orders and with snapshots of their own, both have the same messages with the same statuses up to Unsent versus Sending, and have emitted the same results and durable commands since the installation |
| Nodes.TopicRunsAlone | server/src/protocol/node/raft/state_machine/node.rs:25-136 | while it is loaded a topic goes through exactly the run of its own proposals |
| Nodes.TopicRunsThroughSnapshots | server/src/protocol/node/raft/state_machine.rs:84-285 | and with snapshots in between, up to the shape of its trie |
| Nodes.EntryWrittenOut | server/src/protocol/node/raft/state_machine/node.rs:25-136 | one entry, topic by topic: which topics are there afterwards, which steps, which is loaded from its stored messages, and that no other changes |
| Nodes.NodeAtLast | server/src/protocol/node/raft/state_machine.rs:143-213 | after any log with snapshots at any points the last applied id is that of the last entry, the membership the last in the log, and a topic is there exactly if it was last loaded |
| Frames.FrameThenRest | server/src/protocol/node/edge/connection/tokio_tcp.rs:87-95 | a frame is read back as the packet it was made of, whatever follows |
| Frames.FirstIsFrame | server/src/protocol/node/edge/connection/tokio_tcp.rs:179-199 | what is read as a packet is the frame of that packet |
| Frames.FrameBytes | server/src/protocol/node/edge/connection/tokio_tcp.rs:87-95 | the bytes of a frame, one by one: 16 of id, one of codec, the payload length in four with the most significant first, the payload |
| Frames.ParseIff | server/src/protocol/node/edge/connection/tokio_tcp.rs:161-236 | the packets and the incomplete rest of a byte string are the only ones it can be put together from |
| Frames.ParseMore | server/src/protocol/node/edge/connection/tokio_tcp.rs:161-236 | reading on from the incomplete rest gives what reading at once gives |
| Connections.Reader.PollNext | server/src/protocol/node/edge/connection/tokio_tcp.rs:161-236 | whatever the socket delivers at a time, no byte is lost, doubled or reordered, and each answer that can move a byte does; a packet is handed out exactly when its frame is complete; on a closed stream the call uses up every answer without reading anything |
| Connections.Reader.PollAll | server/src/protocol/node/edge/connection/tokio_tcp.rs:158-237 | polled until the socket has no more answers, of which enough move bytes, the reader has read everything and handed out what parsing it gives; of the frames of some packets, exactly those packets |
| Connections.Reader.ReadHeader | server/src/protocol/node/edge/connection/tokio_tcp.rs:169-204 | one read into the header buffer keeps the account of bytes and takes one if it can; a full header fixes the payload size |
| Connections.Reader.ReadPayload | server/src/protocol/node/edge/connection/tokio_tcp.rs:215-233 | one read into the payload buffer keeps the account of bytes and takes one if it can; a full payload hands out the packet |
| Connections.Reader.ReadsWhatIsThere | server/src/protocol/node/edge/connection/tokio_tcp.rs:158-237 | what was handed out is what parsing all bytes read gives, however they were cut into reads |
| Connections.Reader.ReadsWhatWasWritten | server/src/protocol/node/edge/connection/tokio_tcp.rs:73-237 | of the frames of some packets the reader hands out those that are complete, in order; of all bytes, all packets |
| Connections.Writer.StartSend | server/src/protocol/node/edge/connection/tokio_tcp.rs:87-95 | it succeeds exactly where a machine word has four bytes; then the buffers hold the packet's frame, and between flushes that frame is what remains to be written |
| Connections.Writer.PollFlush | server/src/protocol/node/edge/connection/tokio_tcp.rs:97-144 | however many bytes the socket takes at a time, what is written before it is done is what remained, once and in order, and each answer that can move a byte does |
| Connections.Writer.WriteHeader | server/src/protocol/node/edge/connection/tokio_tcp.rs:108-123 | one write of header bytes keeps what was written and what remains equal to the frame, and writes a byte if it can |
| Connections.Writer.WritePayload | server/src/protocol/node/edge/connection/tokio_tcp.rs:124-141 | the same for payload bytes; the frame is done when none remains |
| Connections.Writer.Send | server/src/protocol/node/edge/connection/tokio_tcp.rs:87-144 | one packet started and flushed until done puts out exactly its frame; it gets done if the socket does not fail and moves bytes more often than the frame has bytes |
| Connections.Writer.SendAll | server/src/protocol/node/edge/connection/tokio_tcp.rs:87-144 | the same for a stream of packets |
| Connections.Transmit | server/src/protocol/node/edge/connection/tokio_tcp.rs:73-237 | packets sent on one connection and read on the other arrive unchanged, all of them and in order, however either side cuts the bytes, given sockets that move enough and words of four bytes; a prefix of them otherwise, and none with words of another size |

## Left out

- Raft itself, membership changes and log storage: each node applies a prefix of one log.
- The responses of `apply`, which only say that an entry was applied, and the stored copy of the last snapshot.
- The five `apply_*` methods for one topic are one method, `NodeDatas.NodeData.ApplyToTopic`; they differ in the call they make.
- Sockets, threads, channels, TLS, WebSocket, cluster discovery and cancellation: dispatches, ack results and durable commands are recorded, what becomes of them is not modelled.
- The pool of callers waiting for acks, which a snapshot replaces by an empty one: a result is emitted, whether someone still waits for it is not modelled.
- The bincode, CBOR, JSON and base64 codecs: a snapshot is the value that is stored, which for interests is the plain map.
- Snowflake ids, hashing and the system clock: ids are numbers, hashes a function, the clock an input of each step.
- Message targets of kind Available, at which the code stops: `TopicDatas.TopicData.HoldNewMessage` asks for the other kinds.
- The durable command queue is one for all topics of a node; it is modelled for one topic and a stable leader, without failing service calls.
- Statuses and times in the durable store: `DurableReplay` follows the ids only.
- The SDKs, edge authentication and endpoint bookkeeping, which hold simple maps only.
- MessageQueues.MessageQueue.Flush: is split into a method for each of its two branches; messages are values in the map of held messages, not objects.
- NodeDatas.NodeData.ApplyToTopic: and `NodeDatas.StateMachineData.Live` ask for a new message id and a clock ahead of the times in the queue, because otherwise the queue's indexes part.
- TopicDatas.TopicData.FromDurable: asks for stored messages with different ids and times; otherwise the source builds indexes that part (`QueueIndex.PushLinks`).
- TopicDatas.TopicData.HoldNewMessage: asks for a new id and a clock ahead of the times in the queue, for the same reason.
- TopicDatas.TopicData.PutInQueue: asks for a new id and a clock ahead of the times in the queue, as its caller does.
- NodeDatas.NodeData.ApplyLoadTopic: asks for stored messages with different ids and times when the topic is absent, as the topic does.
- NodeDatas.StateMachineData.ApplyEntry: asks for the same of an entry that loads a topic or delegates a message.
- Statuses.StepFallsBackIff: asks for acks that never say `Unsent`, as they do on the wire.
- Connections.Writer.PollFlush: a flush without a new packet writes the last frame again, and so it is modelled; nothing claims that callers avoid it.
- Connections.Reader.PollNext: a closed stream answers every read with no bytes, and the source keeps reading without end; the socket of the model has finitely many answers, all of which are used up.
- Agreement.ReplicaAgreement: is about the list of held messages; that the repository's indexes keep to the list needs new ids and increasing times, which the classes ask for.
