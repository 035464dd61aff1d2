# Verified model of the claudemux channel and history

claudemux runs Claude Code and Codex sessions side by side. Two of its parts
carry state that has to survive crashes, races and hostile input: the Feishu
channel, where one daemon receives chat messages and hands them to the session
that owns the channel, and the session history behind `tm history`. This
project models the logic of both in Dafny and proves what it promises.

Classes stand for the objects and closures of the source that are updated in
place; each of their methods is proved against a function of the old state.
Whole runs are sequences of steps applied to a world, one step for each stretch
between two awaits or for each thing the environment can do, in any order.

| file | what it models |
|---|---|
| `Prelude.dfy` | options, sequence facts, the insertion-ordered map, the two engines |
| `Json.dfy` | the printer and the parser of JSON (RFC 8259, sections 4 to 7) |
| `QueueLog.dfy` | the append-only inbound queue, its crash-cut lines and their repair |
| `QueueWriters.dfy` | several daemons on one queue file, each looking and appending in two steps |
| `Delivery.dfy` | event ids; the daemon that persists, routes, marks and replays |
| `DeliveryRuns.dfy` | the delivery protocol over every run, with disconnects and restarts |
| `Framing.dfy` | the length-prefixed frames between daemon and proxy |
| `ToolCalls.dfy` | the tool calls a proxy forwards |
| `Reactions.dfy` | the "received" reaction and its three shared collections |
| `Ownership.dfy` | owner, grant and lease epoch of the channel |
| `HistoryIndex.dfy` | the fold of the history events into records |
| `HistoryRows.dfy` | merging the rows of several sources, and paging |
| `ResumeCommand.dfy` | the printed resume command, the shell and the argument parser |
| `CardWalk.dfy` | the budgeted walk over an interactive card |
| `Discovery.dfy` | the bots of a chat and the one-shot discovery context |
| `Versions.dfy` | reading and comparing versions, and eviction of older daemons |
| `PairingGate.dfy` | the access gate and the pairing requests |
| `PairingRuns.dfy` | messages, codes being sent and approvals, in any order |

`dafny verify dfyconfig.toml` checks everything. Text is a string with one
character for each byte of UTF-8.

Where a promise does not hold of the code as it is, the model keeps the code
and proves exactly when it holds:

- distinct comments have distinct ids: `DeliveryIds.AmbiguousIfCutOtherwise`, and
  token by token `FileTokenAmbiguous`, `CommentTokenAmbiguous`, `ReplyTokenAmbiguous`
- a proxy that registers gets the pending rows: `DeliveryRuns.RegistrationDelivers`
- the owner is the one selected: `Ownership.SelectTarget`. The repository's own proxies
  never meet the exception: `stableProxySessionId` (`plugins/feishu-channel/src/server.ts:940-958`)
  gives each an id that begins with its role. Only another client of the socket can
  register an empty id, which `plugins/feishu-channel/src/daemon-connection.ts:91` does not check
- no open history record remains beside an id: `HistoryIndex.OpenRecordRemains`
- a merged row keeps its key: `HistoryRows.ColonsAloneBreakKeys`. Names with a colon are
  refused by `tm spawn` and `tm resume` (`plugins/claudemux/src/identity/name.ts:17`,
  `plugins/claudemux/src/cli/dispatch.ts:274` and `:430`), and rows under names they accept
  always keep their key (`HistoryRows.TeammateRowsKeepKeys`); other names come only from
  index and identity files that these verbs did not write, or possibly from `tm kill`,
  which does not check the name
- sent pairing codes are remembered: `PairingRuns.CodesAreRemembered`
- no code goes out more than twice: `PairingRuns.CodesGoOutTwiceAtMost`, over every run,
  with the two ways in which it fails: `OverlapSendsThrice` and `StaleStoreSendsThrice`
- approvals stay in force: `PairingRuns.ApprovalsSurvive`

## Model

| member | source | states |
|---|---|---|
| Json.RoundTrip | plugins/feishu-channel/src/daemon-queue.ts:113-117 | every JSON value, printed, parses back to itself: what is appended or sent is what is read |
| Json.LaterWins | plugins/feishu-channel/src/daemon-queue.ts:75-80 | of members with one name the last one counts |
| Json.NoPrefixParses | plugins/feishu-channel/src/daemon-queue.ts:109-111 | no proper prefix of a printed object parses, so a cut line is never taken for a whole one |
| Json.StringifyPrintable | plugins/feishu-channel/src/daemon-queue.ts:113-117 | printed JSON holds no control character, hence no newline |
| QueueEvents.DecodeEncode | plugins/feishu-channel/src/daemon-queue.ts:143-153 | a line that was written whole reads back as its event |
| QueueEvents.DecodeTorn | plugins/feishu-channel/src/daemon-queue.ts:109-111 | a line cut anywhere is not an event, not even another one |
| QueueEvents.EncodeIsOneLine | plugins/feishu-channel/src/daemon-queue.ts:113-117 | an event is one line that starts with a brace |
| QueueEvents.FoldMeaning | plugins/feishu-channel/src/daemon-queue.ts:69-107 | a log has one row for each received id, with the first content received and the first delivery time |
| QueueEvents.PendingMeaning | plugins/feishu-channel/src/daemon-queue.ts:59-61 | the pending rows are exactly those received and not delivered |
| QueueEvents.PendingInOrder | plugins/feishu-channel/src/daemon-queue.ts:59-61 | what is pending stands in the order in which it was first received |
| InboundQueues.ReadText | plugins/feishu-channel/src/daemon-queue.ts:69-107 | the reading loop yields the fold of the events on the lines, passes over a torn last line only, and names the first bad line otherwise |
| InboundQueues.BadLineIsTold | plugins/feishu-channel/src/daemon-queue.ts:76-86 | behind any whole events a whole line that is no event is an error with the number of the line, whatever follows |
| InboundQueues.LogFile.RepairTailForAppend | plugins/feishu-channel/src/daemon-queue.ts:119-141 | a torn last line is truncated away, a whole one without newline is given one |
| InboundQueues.LogFile.AppendEvent | plugins/feishu-channel/src/daemon-queue.ts:113-117 | an append repairs the tail and adds one whole line |
| InboundQueues.InboundQueue.Enqueue | plugins/feishu-channel/src/daemon-queue.ts:48-51 | appends exactly when the id has no row yet; on an unreadable file it fails and changes nothing |
| InboundQueues.InboundQueue.MarkDelivered | plugins/feishu-channel/src/daemon-queue.ts:53-57 | appends exactly when the row is there and undelivered |
| InboundQueues.InboundQueue.PendingRows | plugins/feishu-channel/src/daemon-queue.ts:59-61 | returns the undelivered rows of what the file reads as |
| InboundQueues.ReadsAsOne | plugins/feishu-channel/src/daemon-queue.ts:69-107 | a file reads as one thing only |
| InboundQueues.CrashedLogReads | plugins/feishu-channel/src/daemon-queue.ts:69-117 | after any run of appends, each cut after any number of characters by a crash, the file reads without an error as the fold of exactly the events that were fully written |
| InboundQueues.NextAppendRepairs | plugins/feishu-channel/src/daemon-queue.ts:119-141 | the next whole append after any such run leaves whole lines and has lost none of those events, whether or not the last one got its newline |
| InboundQueues.AttemptHolds | plugins/feishu-channel/src/daemon-queue.ts:113-141 | one append, cut anywhere, keeps the file a log of the events that were fully written |
| QueueWriters.RowsOfAnyInterleaving | plugins/feishu-channel/src/daemon-queue.ts:46-107 | any number of writers, whose look at the file and append interleave: each id still has one row with the first content and first delivery time, and pending is received minus delivered |
| QueueWriters.PendingOfAnyInterleaving | plugins/feishu-channel/src/daemon-queue.ts:46-61 | with no writer between its two steps, the pending ids are those some call queued minus those some call found and marked |
| QueueWriters.SchedulesAgree | plugins/feishu-channel/src/daemon-queue.ts:46-61 | two schedules of the same calls, in which marks follow what they mark, end with the same ids pending: those queued and not marked |
| DeliveryIds.CommentIds | plugins/feishu-channel/src/daemon-routing.ts:82-92 | redeliveries of a comment share an id, and of comments whose file and comment tokens hold no colon only redeliveries do |
| DeliveryIds.AmbiguousIfCutOtherwise | plugins/feishu-channel/src/daemon-routing.ts:86-89 | a comment shares its id with a different comment if and only if the key can be cut at other colons into three non-empty tokens |
| DeliveryIds.FileTokenAmbiguous | plugins/feishu-channel/src/daemon-routing.ts:86-89 | with colonless comment and reply, exactly the file tokens with a colon behind the first character are shared |
| DeliveryIds.CommentTokenAmbiguous | plugins/feishu-channel/src/daemon-routing.ts:86-89 | with colonless file and reply, exactly the comment tokens that hold a colon and are more than a colon are shared |
| DeliveryIds.ReplyTokenAmbiguous | plugins/feishu-channel/src/daemon-routing.ts:86-89 | with colonless file and comment, exactly the replies with a colon before the last character are shared |
| DeliveryIds.ColonsCollide | plugins/feishu-channel/src/daemon-routing.ts:86-89 | a colon that ends the file token of one comment or begins the comment token of another gives both one id |
| DeliveryIds.EventIdWins | plugins/feishu-channel/src/daemon-routing.ts:82-85 | the event id is the id if one is set, the uuid if only that is, and the message id if neither is, whatever else the meta holds |
| DeliveryIds.MessageIds | plugins/feishu-channel/src/daemon-routing.ts:85-85 | two messages known by their message ids alone share an id if and only if they are the same message |
| DeliveryIds.OtherIds | plugins/feishu-channel/src/daemon-routing.ts:90-90 | what carries no id and is no comment is known by its creation time |
| Delivery.Daemon.Route | plugins/feishu-channel/src/daemon-routing.ts:105-113 | one message under the id of its meta goes to the target, or nothing does and false is returned |
| Delivery.Daemon.Notify | plugins/feishu-channel/src/daemon.ts:286-307 | persists the event once, under the id that `DeliveryIds` describes, and then routes it, repeated or not; the file stays readable |
| Delivery.Daemon.OnAck | plugins/feishu-channel/src/daemon.ts:150-153 | an acknowledgement marks its row delivered, once, and only if there is one |
| Delivery.Daemon.ReplayPending | plugins/feishu-channel/src/daemon.ts:310-317 | every pending row is sent to the target, in row order; without a target nothing is |
| DeliveryRuns.RunKeeps | plugins/feishu-channel/src/daemon.ts:118-157 | over every run, rows, messages in flight, acknowledgements, writes and returned ids fit together (the invariant below all of the following) |
| DeliveryRuns.DeliveredWasWritten | plugins/feishu-channel/src/proxy-client.ts:100-111 | in every run, a row is marked delivered only after a proxy wrote an event of its id to Claude: the write was accepted when the log held an event of that id and not yet the mark |
| DeliveryRuns.OneIdThroughout | plugins/feishu-channel/src/daemon-routing.ts:82-114 | row, message and acknowledgement carry one id, the one of the event's meta, and each refers to an existing row |
| DeliveryRuns.ReturnedStays | plugins/feishu-channel/src/daemon.ts:286-298 | an event whose notify returned keeps its row, with its content, through any continuation, restarts included |
| DeliveryRuns.RowsAreFirstLogged | plugins/feishu-channel/src/daemon.ts:286-298 | in every run an id has a row exactly when a notify of it got into the log, and the row holds the content, meta, time and generation of the first such notify |
| DeliveryRuns.MessagesKeepTheirOwn | plugins/feishu-channel/src/daemon-routing.ts:85-85 | two messages with different message ids, whatever came before, between and after them, each have a row with their own content |
| DeliveryRuns.TargetIsOpen | plugins/feishu-channel/src/channel-owner.ts:121-133 | in every run the selected connection is an open one |
| DeliveryRuns.NotifyReaches | plugins/feishu-channel/src/daemon.ts:299-306 | in every reachable state a persisted event goes at once to the selected connection, with its own id, content and meta, unless the send throws; nobody else is sent anything, and nobody at all without a target or a saved event |
| DeliveryRuns.NotifiedIsDelivered | plugins/feishu-channel/src/daemon.ts:148-153 | from every reachable state with an idle target: once a new event was sent to it and it has worked off its inbox, the row of that event is marked delivered |
| DeliveryRuns.RegistrationSends | plugins/feishu-channel/src/daemon.ts:154-157 | in every reachable state a registration, the first or a later one, sends what is pending to the connection then selected, and once more before that when a dispatcher takes the channel; nothing else changes |
| DeliveryRuns.HandoverSends | plugins/feishu-channel/src/channel-owner.ts:183-232 | in every reachable state a tool call that makes somebody owner sends what is pending, in row order, to the connection then selected; every other call sends nothing |
| DeliveryRuns.StartSends | plugins/feishu-channel/src/daemon.ts:198-198 | a daemon that has come up sends what is pending to the connection selected by then |
| DeliveryRuns.NewOwnerHasBacklog | plugins/feishu-channel/src/channel-owner.ts:183-232 | after a call that makes somebody owner every pending row's message is in the inbox of the connection selected, if there is one |
| DeliveryRuns.SelectsTheNew | plugins/feishu-channel/src/channel-owner.ts:107-133 | the session that registers is the one then selected if and only if no live session has its non-empty id and it is the owner, or a dispatcher that finds no owner or the dispatcher before it |
| DeliveryRuns.OpenedEffect | plugins/feishu-channel/src/daemon.ts:154-157 | a new proxy that registers is sent the whole backlog if the owner selects it, and nothing if not |
| DeliveryRuns.RegistrationDelivers | plugins/feishu-channel/src/daemon.ts:154-157 | from every reachable state, a new proxy that registers and works off what it is sent gets every pending row delivered if and only if there is none or the owner now selects it |
| DeliveryRuns.NothingIsStuck | plugins/feishu-channel/src/channel-owner.ts:216-235 | from every reachable state, whoever owns the channel, a new dispatcher under an id no live session has can reclaim it and get every pending row delivered |
| Framing.HeaderRoundTrip | plugins/feishu-channel/src/ipc.ts:68-70 | the four header bytes read back as the length |
| Framing.EncodeFrame | plugins/feishu-channel/src/ipc.ts:63-71 | succeeds exactly for payloads of at most 8 MiB; the four bytes in front are the length, the most significant first, and the payload follows |
| Framing.FrameDecoder.Push | plugins/feishu-channel/src/ipc.ts:83-99 | returns the messages the buffered bytes hold, keeps the rest, and after success holds fewer bytes than one largest frame |
| Framing.FrameDecoder.Receive | plugins/feishu-channel/src/ipc.ts:80-99 | successive pushes deliver what the specification of a chunked stream says, up to the first error |
| Framing.AnyCutting | plugins/feishu-channel/src/ipc.ts:83-99 | where the stream is cut makes no difference |
| Framing.StreamRoundTrip | plugins/feishu-channel/src/ipc.ts:63-99 | every list of messages plus part of another frame, cut into chunks in any way, is received as exactly that list, and the part stays buffered |
| Framing.BadFrameStops | plugins/feishu-channel/src/ipc.ts:83-99 | a frame over the limit or with a payload that is no JSON stops the decoder at that frame, whatever follows, with the messages before it decoded |
| ToolCalls.ProxyClient.CallTool | plugins/feishu-channel/src/proxy-client.ts:74-81 | a call gets the next id, waits and is sent; after a disconnect it is refused |
| ToolCalls.ProxyClient.Disconnect | plugins/feishu-channel/src/proxy-client.ts:83-88 | every waiting call is rejected once, in order, and none waits |
| ToolCalls.ProxyClient.HandleToolResult | plugins/feishu-channel/src/proxy-client.ts:112-122 | a result settles the waiting call of its id, and is ignored otherwise |
| ToolCalls.EachCallEndsOnce | plugins/feishu-channel/src/proxy-client.ts:74-122 | in every interleaving of calls, answers and disconnects, a forwarded call either waits and is unsettled or was settled exactly once |
| ToolCalls.EndsByItsOwnAnswer | plugins/feishu-channel/src/daemon-connection.ts:102-121 | what settles a call is the one answer the daemon gave to that very call, or the disconnect |
| ToolCalls.NothingWaitsAfterDisconnect | plugins/feishu-channel/src/proxy-client.ts:83-88 | after a disconnect every forwarded call has been settled |
| ToolCalls.RepliesAreAwaited | plugins/feishu-channel/src/proxy-client.ts:112-122 | on a live socket no result is for an unknown id, and with nothing on its way nothing waits |
| Reactions.ReactionTracker.RememberCleared | plugins/feishu-channel/src/server.ts:334-343 | re-inserts the message as the newest tombstone and drops the oldest beyond the cap |
| Reactions.ReactionTracker.MarkReceived | plugins/feishu-channel/src/server.ts:398-418 | starts an add exactly for a chat message that is not pending, in flight or cleared |
| Reactions.ReactionTracker.AddReturned | plugins/feishu-channel/src/server.ts:419-443 | a returned id is recorded, or handed back for removal when a reply came first |
| Reactions.ReactionTracker.ClearReceived | plugins/feishu-channel/src/server.ts:455-466 | flags and remembers every add of the chat and lists exactly its pending reactions, each of them |
| Reactions.PendingOfMeaning | plugins/feishu-channel/src/server.ts:465-465 | the list holds a message with a reaction if and only if it is pending in the chat with that reaction, and no message twice |
| Reactions.MessageGetsItsReaction | plugins/feishu-channel/src/server.ts:398-437 | in every reachable state a message that is not known yet gets a reaction, which is on Feishu and pending once the add has come back |
| Reactions.ReplyTakesOff | plugins/feishu-channel/src/server.ts:455-477 | in every run: once the clear of a reply has ended with its removals carried out, no reaction that was pending in the chat at the reply is on Feishu or pending |
| Reactions.AnsweredCarriesNone | plugins/feishu-channel/src/server.ts:419-477 | in every faultless run without evictions: a message whose reaction was pending or being added in the chat at a reply carries none once nothing is under way |
| Reactions.NoReactionIsForgotten | plugins/feishu-channel/src/server.ts:308-477 | in every interleaving each reaction on Feishu is pending, owned by an unfinished add or clear, or lost to one of three named faults; no message is both pending and in flight |
| Reactions.LiveAtRest | plugins/feishu-channel/src/server.ts:398-477 | with nothing under way the live reactions are the pending ones and the lost ones, and no others |
| Reactions.NoReactionIsStranded | plugins/feishu-channel/src/server.ts:345-477 | when ids come back, no removal is refused while its reaction is there, and no tombstone was dropped, the live reactions at rest are exactly the pending ones, and an answered message carries none |
| Reactions.TombstonesAreMostRecent | plugins/feishu-channel/src/server.ts:334-343 | in every run the tombstones are the most recently cleared distinct messages of that run, at most 1024, in recency order |
| Ownership.ParseMatch | plugins/feishu-channel/src/channel-owner.ts:338-348 | the loop accepts exactly non-empty objects whose members are all strings |
| Ownership.ResolveNames | plugins/feishu-channel/src/channel-owner.ts:282-329 | a selector by id finds the first live session of that id or there is none; one by match finds the only live session that matches, or none or two do |
| Ownership.ResolveMeaning | plugins/feishu-channel/src/channel-owner.ts:282-329 | a selector resolves to a session if and only if it names it: the first live session of the id, or the only one whose metadata has every member of the match; and none is seen exactly when none is given |
| Ownership.ChannelOwnerState.Register | plugins/feishu-channel/src/channel-owner.ts:107-119 | only a dispatcher changes the lease, and takes the channel only when it had no owner or the owner was the dispatcher before |
| Ownership.ChannelOwnerState.HandleTool | plugins/feishu-channel/src/channel-owner.ts:135-239 | grant, acquire, return and reclaim change the lease as their specification says, refusals not at all |
| Ownership.DispatcherAssigns | plugins/feishu-channel/src/channel-owner.ts:164-192 | in every run a dispatcher that acquires makes owner exactly the live session that its selector names, or itself without a selector; a selector that names nobody changes nothing |
| Ownership.DispatcherGrants | plugins/feishu-channel/src/channel-owner.ts:144-163 | in every run a dispatcher's grant stands for exactly the live teammate that its selector names and leaves the owner alone; all other calls for a grant are refused and change nothing |
| Ownership.GivenBack | plugins/feishu-channel/src/channel-owner.ts:193-235 | in every run the owner or a dispatcher returns the channel, and a dispatcher reclaims it, if and only if the dispatcher has a live session; that one is then owner and no grant stands; otherwise nothing changes |
| Ownership.NobodyCalls | plugins/feishu-channel/src/channel-owner.ts:144-219 | a connection that has not registered changes nothing |
| Ownership.DispatcherIsLatest | plugins/feishu-channel/src/channel-owner.ts:107-112 | in every run the dispatcher is the one that registered last |
| Ownership.TeammateNeedsStandingGrant | plugins/feishu-channel/src/channel-owner.ts:144-192 | in every run a teammate that acquires for itself becomes owner if and only if the latest dispatcher grant names it and still stands, and this uses the grant up |
| Ownership.TeammateAcquiresOnlyItself | plugins/feishu-channel/src/channel-owner.ts:164-192 | no acquire of a teammate makes anybody else owner |
| Ownership.OwnerChangesOnlySo | plugins/feishu-channel/src/channel-owner.ts:107-239 | the owner changes only by a tool call that reports it, or by a dispatcher registering over no owner or the previous dispatcher; no registration takes the channel from a teammate |
| Ownership.LeaseOfEveryRun | plugins/feishu-channel/src/channel-owner.ts:262-266 | the epoch counts the owner changes, one epoch never has two owners, and there is an owner exactly when a dispatcher has registered |
| Ownership.SelectTarget | plugins/feishu-channel/src/channel-owner.ts:121-133 | the selected connection is the owner's or none, if and only if the owner's id is not the empty string beside a live dispatcher |
| Ownership.SelectMissesAnEmptyId | plugins/feishu-channel/src/channel-owner.ts:121-133 | a run of six events does it: an owner with an empty id is passed over for the dispatcher |
| HistoryIndex.ListHistoryIndexRecords | plugins/claudemux/src/persistence/history-index.ts:266-289 | the loop over two maps computes the fold of the events |
| HistoryIndex.EveryEventInOneRecord | plugins/claudemux/src/persistence/history-index.ts:216-289 | each event contributes to exactly one record, and each record is field by field the newest (or oldest) value of its events, through every re-keying |
| HistoryIndex.OneRecordForEachId | plugins/claudemux/src/persistence/history-index.ts:258-289 | an id has a record exactly when some event carried it, and never two |
| HistoryIndex.AppendNeverForgets | plugins/claudemux/src/persistence/history-index.ts:216-289 | appending an event neither removes an id's record nor turns one of its fields null |
| HistoryIndex.OpenRecordRemains | plugins/claudemux/src/persistence/history-index.ts:250-289 | beside an attribution that has an id an open record remains if and only if, since the id was last given, an event without attribution was keyed like it |
| HistoryIndex.NoOpenRecordRemains | plugins/claudemux/src/persistence/history-index.ts:250-289 | no open record remains for an attribution that does not contain the placeholder word |
| HistoryIndex.OpenRecordOfUnknown | plugins/claudemux/src/persistence/history-index.ts:258-264 | with the placeholder word as a name one does remain |
| HistoryRows.NormalizeRows | plugins/claudemux/src/verbs/history-query.ts:199-205 | one row for each distinct key, in the order the keys first came |
| HistoryRows.GroupMeaning | plugins/claudemux/src/verbs/history-query.ts:125-165 | a key has a row exactly when some input row has it, with the highest-ranked state of its group, which one of them has |
| HistoryRows.StateOfTheGroup | plugins/claudemux/src/verbs/history-query.ts:156-165 | a merged row is in the first state, from busy over borrowed, idle, killed and orphaned to unknown, that some row of its group is in |
| HistoryRows.OrderDoesNotMatter | plugins/claudemux/src/verbs/history-query.ts:125-165 | keys and their states are the same for every order of the input |
| HistoryRows.FieldsOfTheFirst | plugins/claudemux/src/verbs/history-query.ts:127-147 | id, name, repo and cwd of a merged row, and each other field that the merge takes with `a ?? b` (worktreeSlug, branch, baseRef, lastSeenAt, intent, closeStatus and its note, the last preview, the resume command, topic, path and size), are those of the first row of its group that has them |
| HistoryRows.SourceOfTheBest | plugins/claudemux/src/verbs/history-query.ts:116-146 | its source is one of its group that no other outscores |
| HistoryRows.SourceOfTheGroup | plugins/claudemux/src/verbs/history-query.ts:116-123 | a merged row comes from the index if any of its group does, and otherwise from the identity file if any does |
| HistoryRows.MergesSessions | plugins/claudemux/src/verbs/history-query.ts:111-114 | rows that both have an id merge exactly when engine and id are equal; rows without, and with colonless names, exactly when engine, name, directory and source are |
| HistoryRows.IdsStandApart | plugins/claudemux/src/verbs/history-query.ts:111-114 | a row under an id without a colon never merges with one without an id |
| HistoryRows.GroupKeepsKey | plugins/claudemux/src/verbs/history-query.ts:111-154 | while no name holds a colon, each merged row still has the key of its group |
| HistoryRows.ColonsAloneBreakKeys | plugins/claudemux/src/verbs/history-query.ts:111-154 | a name is safe to merge under if and only if it has no colon |
| HistoryRows.TeammateRowsKeepKeys | plugins/claudemux/src/identity/name.ts:17-17 | rows whose names, where they have one, are names of teammates keep the key of their group through every merge |
| HistoryRows.PagesShowEveryRowOnce | plugins/claudemux/src/verbs/history-query.ts:321-356 | following the cursor from the start with any positive limit ends and shows every filtered row once, in order |
| ResumeCommand.SplitJoin | plugins/claudemux/src/verbs/history-query.ts:73-75 | a command line of quoted and plain words is split by the shell into exactly the words meant, for all strings |
| ResumeCommand.ParseResumeArgs | plugins/claudemux/src/shared/verb-args.ts:115-204 | the argument loop reads what its recursive specification says, errors included |
| ResumeCommand.FlagForms | plugins/claudemux/src/shared/verb-args.ts:115-180 | a flag and its value mean the same in one word and in two, and `--about` is `--intent` |
| ResumeCommand.FlagsRoundTrip | plugins/claudemux/src/shared/verb-args.ts:115-204 | arguments spelled out by their flags are read back, each into its own field, for all values |
| ResumeCommand.OtherWords | plugins/claudemux/src/shared/verb-args.ts:181-204 | the first two words that are no flags are name and session and the third is refused; a missing value, an unknown flag and an unknown engine are each refused as such |
| ResumeCommand.ResumeCommandRoundTrip | plugins/claudemux/src/verbs/history-query.ts:180-197 | the printed command, split by the shell and parsed, gives back engine, directory, id, name and intent, whatever characters they hold; there is none exactly without id or directory |
| SafeText.SafeInlineIsSafe | plugins/feishu-channel/src/markdown-safe.ts:15-21 | what is left of a title holds no delimiter and no control character, and only single spaces between other characters |
| SafeText.SafeInlineOnce | plugins/feishu-channel/src/markdown-safe.ts:15-21 | sanitizing twice changes nothing more |
| SafeText.SafeInlineSplits | plugins/feishu-channel/src/markdown-safe.ts:15-21 | a character that has to go leaves one space between what is left of the texts before and after it, or none when one of them is empty |
| SafeText.SafeInlineLeaves | plugins/feishu-channel/src/markdown-safe.ts:15-21 | a text of other characters is left as it is |
| SafeText.SafeIdentifierIsSafe | plugins/feishu-channel/src/markdown-safe.ts:29-31 | letters, digits, `_` and `-` stay where they are and every other character becomes `_` |
| CardWalk.Walk.RenderInlineImage | plugins/feishu-channel/src/inbound-content.ts:416-428 | an image with a key is downloaded while the download budget lasts, and referred to after |
| CardWalk.Walk.CollectFields | plugins/feishu-channel/src/inbound-content.ts:335-345 | each field spends one unit; the loop stops at the first it cannot pay for |
| CardWalk.Walk.CollectCardText | plugins/feishu-channel/src/inbound-content.ts:314-368 | the recursive walk renders exactly the first units, as many as the budget allows, of the unbudgeted walk |
| CardWalk.RenderCard | plugins/feishu-channel/src/inbound-content.ts:268-292 | a card renders to its title and the parts of the units reached, and the downloads are those of these units |
| CardWalk.PartsApart | plugins/feishu-channel/src/inbound-content.ts:291-291 | the parts stand in their order with an empty line between them, and a card without any is a placeholder |
| CardWalk.EnvelopeIsTransparent | plugins/feishu-channel/src/inbound-content.ts:295-303 | a card wrapped in the JSON string of an envelope is unwrapped to itself |
| CardWalk.BodyMeaning | plugins/feishu-channel/src/inbound-content.ts:280-286 | the elements are those of the body if the card has one, and its own otherwise |
| CardWalk.TitleMeaning | plugins/feishu-channel/src/inbound-content.ts:274-280 | a title of which something is left comes first, in bold |
| CardWalk.WalkShowsAll | plugins/feishu-channel/src/inbound-content.ts:314-368 | without limits the walk gets exactly the texts and images that the elements of the card show, below any elements and columns: none is missed and none made up |
| CardWalk.CardIsWhole | plugins/feishu-channel/src/inbound-content.ts:251-258 | the walk reaches all of a card if and only if it is at most 33 levels deep and spends at most 4000 units |
| CardWalk.BudgetCutsTheEnd | plugins/feishu-channel/src/inbound-content.ts:323-324 | the parts are a prefix of those of the walk without a node budget |
| CardWalk.OnePartPerUnit | plugins/feishu-channel/src/inbound-content.ts:314-368 | at most one part for each unit spent |
| CardWalk.FirstImagesDownloaded | plugins/feishu-channel/src/inbound-content.ts:86-86 | the downloads of a card are those of its first 16 images with a key, successful or not, and no more |
| ChatBots.ChatBotsStore.RecordChatMember | plugins/feishu-channel/src/chat-bots-store.ts:106-124 | records the bot once and says whether it was new |
| ChatBots.ChatBotsStore.ClearPendingNewBots | plugins/feishu-channel/src/chat-bots-store.ts:139-149 | takes exactly the given ids off the queue, keeping the order |
| ChatBots.ChatBotsStore.RecordSeenEvent | plugins/feishu-channel/src/chat-bots-store.ts:175-191 | accepts an id that is not remembered and forgets the oldest beyond 200 |
| ChatBots.SeenAreTheLastAccepted | plugins/feishu-channel/src/chat-bots-store.ts:175-191 | the remembered event ids are always exactly the last 200 accepted ones, without duplicates |
| Discovery.Discoverer.ObserveBotSender | plugins/feishu-channel/src/bot-discovery.ts:47-67 | a bot sender other than oneself is recorded, and queued when new |
| Discovery.Discoverer.HandleBotMessage | plugins/feishu-channel/src/handlers/im-message.ts:55-111 | a message of a bot is no event without a sender id; otherwise the bot is observed, and recorded as introduced when it introduces itself |
| Discovery.Discoverer.HandleIntroduce | plugins/feishu-channel/src/handlers/im-message.ts:273-295 | the mentioned bots are recorded as introduced one by one, and queued when new |
| Discovery.Discoverer.BuildDiscoveryContext | plugins/feishu-channel/src/bot-discovery.ts:121-156 | shows the peers once per chat as a baseline, and the queued ones otherwise |
| Discovery.Discoverer.CommitContext | plugins/feishu-channel/src/bot-discovery.ts:138-155 | stamps the baseline and takes what was shown off the queue, and nothing that came since |
| Discovery.PeersAreToldOrQueued | plugins/feishu-channel/src/bot-discovery.ts:47-169 | in every run, with observations arriving between building and committing, every discovered peer was shown in a successful delivery or is queued, and never both |
| Discovery.KnownAreSeen | plugins/feishu-channel/src/handlers/im-message.ts:77-111 | in every run the discovered bots are exactly those that sent a message or were introduced, and the introduced ones exactly those that introduced themselves or were mentioned in an introduction |
| Discovery.ContextShows | plugins/feishu-channel/src/bot-discovery.ts:121-156 | in every run a context is a baseline from the joining on until one is committed, and then shows all discovered peers; any other shows exactly the discovered peers that no successful delivery has shown |
| Discovery.BaselineCommits | plugins/feishu-channel/src/bot-discovery.ts:138-145 | delivering a baseline commits it |
| Discovery.ListsAreSets | plugins/feishu-channel/src/chat-bots-store.ts:106-149 | the three lists are free of duplicates, and the queued and the introduced bots are discovered ones |
| Discovery.NewsIsNew | plugins/feishu-channel/src/bot-discovery.ts:146-156 | no bot is announced as new that a successful delivery has shown |
| Discovery.BaselineOnce | plugins/feishu-channel/src/bot-discovery.ts:123-145 | once committed, the baseline is never built again |
| Versions.ParseSpelled | plugins/feishu-channel/src/version.ts:11-11 | every text of the version pattern is read as the numbers and the prerelease it spells |
| Versions.ParsedIsSpelled | plugins/feishu-channel/src/version.ts:40-49 | nothing else is read |
| Versions.VersionRoundTrip | plugins/feishu-channel/src/version.ts:40-49 | a version written out in decimal, with any prerelease and build, is read back |
| Versions.IdentifiersJoined | plugins/feishu-channel/src/version.ts:55-56 | a prerelease falls apart into the words that its dots join |
| Versions.ComparePrerelease | plugins/feishu-channel/src/version.ts:51-68 | the loop over identifiers computes the lexicographic comparison, a shorter list first |
| Versions.VersionsOrdered | plugins/feishu-channel/src/version.ts:27-34 | the comparison is a total preorder: swapping sides swaps the sign, and it is transitive, given an order on the alphanumeric identifiers |
| Versions.CompareIsPrecedence | plugins/feishu-channel/src/version.ts:51-77 | its sign is the precedence of section 11 of Semantic Versioning 2.0.0, in both directions |
| Versions.EvictsTheOlder | plugins/feishu-channel/src/daemon.ts:215-239 | a running daemon is evicted if and only if both versions can be read and its own precedes that of the starting one |
| Versions.EvictionsRise | plugins/feishu-channel/src/daemon.ts:215-239 | along any chain of evictions versions strictly increase, so no version comes back |
| PairingGate.PruneExpiredPending | plugins/feishu-channel/src/access.ts:289-303 | the loop keeps exactly the unexpired requests and reports whether that changed anything |
| PairingGate.PrunedMeaning | plugins/feishu-channel/src/access.ts:289-303 | a request is kept if and only if it has not expired, as it was |
| PairingGate.GateKeeps | plugins/feishu-channel/src/access.ts:66-274 | one decision keeps policies, lists and groups and the bounds on requests |
| PairingRuns.RequestsStayBounded | plugins/feishu-channel/src/access.ts:87-130 | from the defaults on, however messages, the sending of codes and approvals interleave: at most ten requests, one or two replies each, one request a sender and one a group |
| PairingRuns.MessagesTidyUp | plugins/feishu-channel/src/access.ts:66-85 | a message that needs no code leaves exactly the unexpired requests in the file, as they were |
| PairingGate.DeliversTheAdmitted | plugins/feishu-channel/src/access.ts:87-274 | a message is delivered if and only if the policies admit it, mentions of the bot being read as `MentionMeaning` says |
| PairingGate.MentionMeaning | plugins/feishu-channel/src/access.ts:276-282 | the bot counts as mentioned if and only if its id is known and not empty and some mention has it as its open id, or has no open id and has it as its union id |
| PairingGate.ChangesAreTold | plugins/feishu-channel/src/access.ts:66-274 | a decision under a new code says that the state changed if and only if it did |
| PairingGate.PairsThoseWithRoom | plugins/feishu-channel/src/access.ts:87-274 | a code is sent if and only if the message may pair and finds room: fewer than ten unexpired requests and none of its party, or a direct sender with one reply so far |
| PairingGate.GateEffect | plugins/feishu-channel/src/access.ts:66-274 | a decision adds a reply to the sender's own unexpired request, or one first request of a new party with its hour to live, or changes no unexpired request |
| PairingRuns.MessagesChangeNobodysAccess | plugins/feishu-channel/src/access.ts:66-274 | no run of messages, codes being sent or not, lets anybody in or shuts anybody out |
| PairingGate.CodesAreSentTwiceAtMost | plugins/feishu-channel/src/access.ts:102-130 | message after message with fresh codes, no code is sent more than twice and its request counts how often |
| PairingRuns.CodesAreRemembered | plugins/feishu-channel/src/handlers/im-message.ts:131-204 | over every run, each unexpired code sent and not approved is stored with its true count, and no other is, if and only if every decision was stored with the standing of all unexpired codes as it was when the decision was taken |
| PairingRuns.DisturbedBySending | plugins/feishu-channel/src/handlers/im-message.ts:188-204 | without approvals that condition is: no code still unexpired was sent between the decision and its storing |
| PairingRuns.CountedAtDecision | plugins/feishu-channel/src/access.ts:102-115 | a decision to send a code counts one sending more than the store did; that is its true number exactly if the store counted the sendings so far truly |
| PairingRuns.CodesGoOutTwiceAtMost | plugins/feishu-channel/src/handlers/im-message.ts:188-204 | over every run with codes that are not repeated, no code goes out more than twice if and only if each sending was decided while the store counted its code truly, and its code was not sent between that decision and the sending |
| PairingRuns.RememberedCodesGoOutTwice | plugins/feishu-channel/src/access.ts:102-115 | over a run that remembers its codes only the second of these can fail: none goes out more than twice if and only if none was sent again between a decision to send it and that sending |
| PairingRuns.ApprovalsSurvive | plugins/feishu-channel/src/handlers/im-message.ts:131-204 | over every run with approvals, all of them stay in force if and only if no decision is stored that was taken before an approval that granted something |
| PairingRuns.ApprovedAreAdmitted | plugins/feishu-channel/skills/access/SKILL.md:55-75 | what is then in force: the list holds those it held and the approved senders, the entries are those there were and those of the approved groups, which ask for a mention and let every member through, and nothing else changed |
| PairingRuns.ApprovedGetThrough | plugins/feishu-channel/skills/access/SKILL.md:76-81 | under these policies an approved sender's direct messages are admitted, and an approved group's messages exactly when they mention the bot |
| PairingRuns.DeliveryFollowsApprovals | plugins/feishu-channel/src/access.ts:66-274 | as long as that holds, a message is delivered exactly if the policies with every approval in force admit it |
| PairingRuns.OneAtATimeKeepsAll | plugins/feishu-channel/src/handlers/im-message.ts:188-204 | when each code is out before anything else is sent or approved, codes are remembered with their counts, go out twice at most, and approvals stay |
| PairingRuns.OverlapForgetsACode | plugins/feishu-channel/src/handlers/im-message.ts:188-204 | two overlapping first messages of a sender: the first code sent is forgotten |
| PairingRuns.OverlapSendsThrice | plugins/feishu-channel/src/handlers/im-message.ts:188-204 | two overlapping further messages of a sender: the code goes out three times while two are counted |
| PairingRuns.StaleStoreSendsThrice | plugins/feishu-channel/src/handlers/im-message.ts:188-204 | a decision for another sender, taken before a second reply and stored after it, takes that reply out of the count; the code then goes out a third time with nothing between decision and sending |
| PairingRuns.OverlapTakesBackAnApproval | plugins/feishu-channel/src/handlers/im-message.ts:188-204 | an approval made while the code of another sender is being sent is taken back |

## Left out

- Json.RoundTrip: numbers are kept as the text they are written with, so no floating-point value is involved, and a member written twice is kept twice; a `\u` escape above U+007F is turned into UTF-8 bytes, surrogate pairs are not joined.
- The order that JavaScript gives to integer-like keys of objects: members stay in the order written. This concerns `meta` records and the order in which the gate looks through pairing codes; at most one request of a party exists, so the order decides nothing there.
- White space beyond ASCII in `trim` and in the text sanitizing of cards.
- A queue event of type `received` that carries a `deliveredAt`: no caller writes one.
- Two writers on a queue file whose last line is torn: read and truncate are not atomic there, so crashes and several writers are modelled apart.
- InboundQueues.LogFile.AppendEvent: a write ends after a prefix of its characters or is whole; errors of the file system are steps only in `DeliveryRuns`, where a write is made, not made, or made and reported as failed.
- Delivery.Daemon.Notify: the target is given by the caller; over runs it is the connection that `Ownership.Select` picks. `selectPrimary`, the router's unused default, is not modelled.
- DeliveryRuns.NothingIsStuck: says that delivery can always be completed by a dispatcher, not that it will be; nothing is said about time.
- Framing.FrameDecoder.Push: messages decoded before an oversized or unparsable frame in one call are lost with the exception, as in the source, so the independence of the cutting is stated for streams without such a frame.
- ToolCalls.EndsByItsOwnAnswer: `send` does not throw, and what a tool does is a parameter of the step.
- Reactions.NoReactionIsStranded: needs that no tombstone was dropped in the run, which the cap allows only after 1024 other messages were cleared.
- Ownership.ParseMatch: the record that it builds is kept as a list of its members.
- HistoryIndex.ListHistoryIndexRecords: works on parsed events; reading the lines of the index file and checking their fields is left out.
- HistoryRows.NormalizeRows: the final sort is left out, because its comparator does not order rows with equal ids consistently; the merge of `createdAt` and its companions follows no simple rule and is left out, and the other plain fields stand in one map.
- HistoryRows.FieldsOfTheFirst: says nothing of `createdAt`, its source and its milliseconds, which the merge takes from either row by rules of their own.
- HistoryRows.PagesShowEveryRowOnce: the filter is any predicate on rows; its single conditions, globs and date bounds are left out.
- ResumeCommand.ResumeCommandRoundTrip: a row that brings its own resume command is printed as it is and not modelled; the shell model refuses lines with unquoted special characters, which the printed command never has; NUL characters cannot be passed on a command line and are not excluded here.
- CardWalk.RenderCard: other message types, posts with inline images among them, are left out; they share the download budget with cards but not a message. `isRecord` of the transport package is not part of this model and is taken to accept plain objects only.
- Discovery.PeersAreToldOrQueued: a crash between recording a new bot and queueing it loses the announcement; the two writes of the store are taken as one step. The names of bots and the text of the context are left out, and the bot's own id does not change during a run.
- Versions.VersionsOrdered: numbers are unbounded, where the source loses precision beyond 2^53; `localeCompare` is a parameter that is assumed to order identifiers, not to be the ASCII order of the standard.
- Versions.EvictionsRise: the version decides whether an eviction is tried; the locks, the probe and the signal that carry it out are left out.
- PairingRuns.ApprovalsSurvive: an approval reads and writes the file in one step, as described in `skills/access/SKILL.md`; an operator's session that writes over a message decided meanwhile is left out, and so are edits of the lists by hand.
- PairingRuns.CodesAreRemembered: needs a generator that repeats no code, as the gate takes its new code for granted.
- PairingRuns.CodesGoOutTwiceAtMost: needs, like `CodesAreRemembered`, a generator that repeats no code.
- PairingRuns.RememberedCodesGoOutTwice: needs in addition a clock that does not run backwards, and so does `OneAtATimeKeepsAll`.
- Sockets, locks, process start and stop, signals, clocks and the Feishu and MCP libraries are steps of the environment or parameters.
- `doctor.ts`, help texts, formatters, thin verbs, generated protocol types, `shutdown.ts`, `paths.ts`, `uuid-prefix.ts` and `name.ts` would add easy members only; `git-worktree.ts`, `tmux.ts`, `column.ts` and `grep.ts` mean what external programs do.
