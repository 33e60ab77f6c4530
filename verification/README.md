# Zvonilka: event delivery, bot updates and their neighbours

This project models the parts of the Zvonilka messenger backend in which correctness spans many
steps, and proves what they promise over every input and every run:

* the two event streams of the gateway, which mix replay of a durable log with a lossy in-process
  notifier (`SyncStream`, `SyncGateway`, `SyncPull`, `CallStream`), and what they owe a subscriber, said
  in the fields of requests and events alone (`SyncContract`, `PullContract`, `CallContract`);
* the bot update pipeline: cursor-driven fan-out in transactions, a per-bot queue, Telegram-style
  acknowledgement and webhook delivery with capped retry (`BotUpdates`, `BotBuild`, `BotTables`,
  `BotService`, `BotPipeline`, `BotRuns`, `BotHooks`, `BotPolling`, `BotLate`, `Backoff`);
* page tokens, concretely down to base64url, and the client walks over them (`Base64Url`,
  `PageToken`, `PageWalk`);
* the end-to-end-encryption overlay, the send gate and the field-mask update (`Overlay`,
  `SendGate`, `FieldMask`);
* bot keyboards and the metadata of copied messages, game scores, and the mesh bridge round
  (`Keyboard`, `Metadata`, `Scores`, `Mesh`).

`EventLog` holds the log and its plain replay, the reference against which both ways of reading it
are proved; `Order` holds sorting; `Text` and `Outcomes` hold Go string operations and result types.

Code that changes state step by step is a class or a method proved against a specification
function or relation; the properties are lemmas about those. Interleaved behaviour is a transition
system whose actions are the atomic steps of the code, and the lemmas speak of all action sequences.

Specification functions that decide something (what a request asks for, who is told, which rows are
returned) have a lemma that says the same in the fields of their inputs, without them.

Reading order: `SyncStream.StreamRefinesReplay`, `SyncContract.StreamSendsExactly`,
`SyncPull.PullReturnsReplay`, `PullContract.PullRowsExact`, `CallStream.GapFreeIff`,
`CallContract.AllForSubscriberSentIff`, `BotBuild.BuildIsRight`, `BotRuns.FanoutExactlyOnce`,
`BotService.GetUpdates`, `BotService.FinishDelivery`, `BotPolling.ReceivedIsPrefix`, `BotLate.LostIff`,
`PageWalk.LookAheadWalk`, then the rest.

## Where the code does less than one would expect

Each item names the lemma that shows it and the lemma with the exact condition under which the code
does what one would expect. An item without such a condition is a property of all inputs.

* `PullEvents` moves `NextSequence` past included events its row cap drops (`SyncPull.RowCapLosesAnEvent`;
  condition: `SyncPull.LosslessIff`, and `SyncPull.LosslessWithoutFiltering` for requests that filter nothing).
* The call stream's weaker guard jumps over events that commit after the backlog was read and before
  the event whose signal it sends (`CallStream.JumpLosesAnEvent`; condition: `CallStream.GapFreeIff`), and
  it does not ask whom an event is addressed to (condition: `CallStream.AllWantedIff`).
* A call-event page is filtered after its row limit, so a full page of rows for other devices comes back
  empty and the stream stalls (`CallStream.HiddenPageStalls`; condition: `CallStream.EmptyPageIffAllHidden`).
* Message pages drop hidden rows after the look-ahead limit, so a walk can end early
  (`PageWalk.HiddenRowEndsWalk`; condition: `PageWalk.LookAheadWalk`).
* Unguarded list endpoints never return an empty token for a non-empty list (`PageWalk.UnguardedWalk`).
* A filter made only of blank conversation IDs selects everything in the log and nothing directly; for
  every other filter the two agree (`SyncStream.AllowedMatchesRequested`).
* The reason of a refused encrypted send depends on coverage order when two kinds of bad entry are
  present (`SendGate.ReasonDependsOnOrder`; otherwise `SendGate.ReasonForgetsOrder`); the boolean does not.
* With a settings flag and a contradicting trust policy in one field mask the last path wins
  (`FieldMask.OrderMatters`; otherwise `FieldMask.OrderDoesNotMatter`).
* A delivery, successful or not, writes back the webhook row its round began with, which can bring a
  deleted webhook back (`BotHooks.StaleWriteBack`; condition: `BotHooks.DeliveryKeepsConfigIff`, and
  over runs `BotHooks.RoundKeepsConfig`).
* A row that becomes visible after the client has received a larger ID is lost to it once the next
  call deletes below its offset, unless a look of the call under way still returns it, out of order
  (`BotLate.LateRowLost`, `BotLate.LateRowReceived`; conditions: `BotLate.LostIff`,
  `BotLate.InTimeNeverLost`, `BotLate.ClimbingIff`).
* Acknowledging an answer that a type filter has thinned deletes rows the client was never shown
  (condition: `BotPolling.FilteredAckLosesIff`).
* A score saved after a better one lowers the row (condition: `Scores.InterleavingIff`).
* A bot that was removed from a chat is never told so (`BotUpdates.DepartedBotHearsNothing`).
* The retry delay turns negative once a doubling wraps around (condition: `Backoff.DelayIsCappedDoublingIff`).

`Metadata.CloneAmbiguous` is not on this list: cloned maps have trimmed keys, because the conversation
layer trims metadata before storing it and the bot's own maps have constant keys, so
`Metadata.TrimmedIsUnambiguous` applies.

## Model

| member | source | states |
|---|---|---|
| EventLog.ReplayExact | internal/domain/conversation/pgstore/events.go:115-163 | The reference replay over (lo, hi] holds exactly the requested and included events of the log, strictly ascending |
| EventLog.ScanExact | internal/domain/conversation/pgstore/events.go:115-163 | Reading from a sequence lists every requested later event and nothing else, in order |
| EventLog.ScanDrop | internal/app/gateway/sync.go:82-94 | Reading on from the j-th event read gives exactly the rest of the first reading |
| EventLog.PullChain | internal/domain/conversation/sync.go:192-224 | A pull of any size is a chain of next requested events without a gap |
| EventLog.ReplayNext | internal/app/gateway/sync.go:249-262 | Moving the bound to the next requested event extends the replay by that event alone, if included |
| EventLog.ReplayGrow | internal/domain/conversation/pgstore/events.go:115-163 | Later appends never change a replay up to a bound already reached |
| SyncStream.AllowedMatchesRequested | internal/app/gateway/sync.go:309-322 | The direct-send conversation filter agrees with the log filter, except exactly for filters of blank IDs only |
| SyncStream.DirectSendIsNext | internal/app/gateway/sync.go:265-307 | The guard sequence == from+1 makes a published event the next one of the log, so nothing is skipped |
| SyncStream.StepInv | internal/app/gateway/sync.go:138-197 | Every step of stream, log, notifier and publishers keeps the stream invariant and never moves it back |
| SyncStream.ReachableInv | internal/app/gateway/sync.go:138-197 | The invariant and monotone progress over every run |
| SyncStream.StreamRefinesReplay | internal/app/gateway/sync.go:159-196 | In every reachable state, under dropped, delayed, reordered and duplicated signals, the durable events sent are exactly the replay over (start, progress], in order, each once |
| SyncStream.FrozenRun | internal/app/gateway/sync.go:227-263 | On a log that stops growing every backlog pull removes min(50, rest) from the unscanned requested events |
| SyncStream.StreamDrains | internal/app/gateway/sync.go:160-195 | Enough pulls on a frozen log send everything requested and included, even when whole pages are filtered out |
| SyncStream.PageMovesForward | internal/app/gateway/sync.go:249-262 | A backlog page with anything in it moves fromSequence strictly forward |
| SyncStream.SyncConversationAllowed | internal/app/gateway/sync.go:309-322 | The search loop decides membership in the trimmed conversation filter |
| SyncGateway.SendEvents | internal/app/gateway/sync.go:249-262 | The page loop sends the included events until a send fails, and then leaves the position alone |
| SyncGateway.BacklogReplays | internal/app/gateway/sync.go:227-263 | A backlog read keeps sent == replay, also when a send fails midway; a page that went out whole moves the stream to its end |
| SyncGateway.TryDirectSyncSignal | internal/app/gateway/sync.go:265-307 | A signal is sent directly exactly under the guard, and moves the position exactly for durable events |
| SyncGateway.DirectReplays | internal/app/gateway/sync.go:265-307 | A direct send of an event that is in the log keeps sent == replay |
| SyncGateway.SubscribeEvents | internal/app/gateway/sync.go:138-197 | Over any script of pages, signals, ticks and a failing send the call sends exactly what alternating pages and direct sends give |
| SyncGateway.StreamReplays | internal/app/gateway/sync.go:159-196 | And that is the replay of the log up to the last event dealt with, for every script and wherever a send fails |
| SyncGateway.ShortPageExhausts | internal/app/gateway/sync.go:236-247 | A page that came back short leaves nothing requested behind it |
| SyncGateway.CallCatchesUp | internal/app/gateway/sync.go:159-196 | A call whose last page came back short and went out whole has sent everything requested and included in that log |
| SyncContract.StreamSendsExactly | internal/app/gateway/sync.go:138-225 | For every script and wherever a send fails: the durable events sent are exactly the log events after start, up to the last one dealt with, of the conversations the request names (or any, if it names none), without presence and moderation events unless their own flag is set |
| SyncContract.StreamPasses | internal/app/gateway/sync.go:208-322 | Nothing sent, synthetic events included, is an event its own flag holds back, and no synthetic event is of a conversation the filter leaves out |
| SyncGateway.SyncNotifier.Subscribe | internal/app/gateway/realtime.go:26-43 | A new subscriber gets a fresh empty channel; the others are untouched |
| SyncGateway.SyncNotifier.Unsubscribe | internal/app/gateway/realtime.go:26-43 | Only that channel goes |
| SyncGateway.SyncNotifier.Broadcast | internal/app/gateway/realtime.go:67-81 | Every channel with room gets the signal and every full one drops it, in any map order |
| SyncGateway.SyncNotifier.Publish | internal/app/gateway/realtime.go:49-56 | An event without an ID is not published; any other goes to every channel with room |
| SyncPull.BatchLimit | internal/app/gateway/sync.go:324-335 | The raw batch is at least the page and 32, and stays below the service's own cap |
| SyncPull.ReadBatch | internal/app/gateway/sync.go:65-101 | One batch either ends the call with its outcome or leaves n full batches read |
| SyncPull.PullEvents | internal/app/gateway/sync.go:44-108 | The whole call, against a log that grows between batches: batch count, rows, position and HasMore as the input determines them |
| SyncPull.KeptIsReplay | internal/app/gateway/sync.go:208-225 | Filtering the first k scanned events gives the replay up to the k-th |
| SyncPull.PullReturnsReplay | internal/app/gateway/sync.go:57-106 | Rows are the first `limit` events of the replay over (from, next]; lossless exactly when that window holds at most `limit` |
| SyncPull.LosslessIff | internal/app/gateway/sync.go:57-106 | For every request and log: lossless exactly when the batches that the input makes the call read keep no more events than the page holds |
| PullContract.PullRowsExact | internal/app/gateway/sync.go:44-108 | For every request and log: rows are events of the window that the request asks for and whose own flag is set where one is needed, at most a page; such an event is missing only behind a full page |
| SyncPull.PullAdvances | internal/app/gateway/sync.go:57-106 | Without HasMore the log is exhausted; with it at least a full batch was consumed |
| SyncPull.LosslessWithoutFiltering | internal/app/gateway/sync.go:324-335 | When nothing is filtered out a call is lossless exactly when the page exceeds 128 rows or the rest fits |
| SyncPull.RowCapLosesAnEvent | internal/app/gateway/sync.go:82-94 | Concrete response that steps over an included event for good |
| SyncPull.WalkTerminates | internal/app/gateway/sync.go:57-106 | A client following NextSequence on a frozen log stops after boundedly many calls |
| SyncPull.LosslessWalkIff | internal/app/gateway/sync.go:57-106 | On a frozen log a finished walk returned the whole replay exactly when the batches that the input makes each of its calls read keep no more events than the page holds |
| CallStream.PullIsChain | internal/domain/call/read.go:83-150 | A page of call events is a chain of next wanted events |
| CallStream.BacklogSendInv | internal/app/gateway/call.go:805-823 | Sending the next wanted event keeps the stream invariant without recording a jump |
| CallStream.DirectSendInv | internal/app/gateway/call.go:829-844 | A direct send of any later event keeps the invariant with its jump recorded |
| CallStream.SendBacklog | internal/app/gateway/call.go:814-823 | The page is sent event by event, the position following each, until a send fails |
| CallStream.TakeTurn | internal/app/gateway/call.go:799-847 | One turn: a non-empty page, else the signal under its weaker guard |
| CallStream.SubscribeCallEvents | internal/app/gateway/call.go:783-849 | The whole call over any script of pages, signals, ticks and a failing send |
| CallStream.CallKeepsInv | internal/app/gateway/call.go:799-847 | What a call sends are log events with strictly increasing sequences, and each wanted event up to the position is sent or strictly inside a jump |
| CallStream.SkippedIffInGap | internal/app/gateway/call.go:829-844 | The jumps of a call are exactly the gaps between its position and the signals it sends directly |
| CallStream.GapFreeIff | internal/app/gateway/call.go:829-844 | Over every script: gap-free exactly when no turn that sends a signal directly finds a wanted event in the log between its position and that signal |
| CallStream.AllWantedIff | internal/app/gateway/call.go:829-844 | Everything sent is what the log would give this subscriber exactly when every directly sent event is |
| CallContract.PagesAreForSubscriber | internal/domain/call/read.go:120-165 | Every event of a page is for nobody in particular or for the trimmed account and device, and of the named call, else of the named conversation |
| CallContract.SentIsAccounted | internal/app/gateway/call.go:783-849 | Over every script: whatever is sent is for this subscriber and of what it asked for, or was sent directly by a turn whose signal matched the identifiers as given |
| CallContract.AllForSubscriberSentIff | internal/app/gateway/call.go:783-849 | Every log event in (start, position] for this subscriber and of what it asked for is sent, exactly when no direct send jumps over one |
| CallStream.DirectWantedIffVisible | internal/app/gateway/call.go:829-844 | For trimmed identifiers a direct send lacks only the addressee check of the log |
| CallStream.JumpLosesAnEvent | internal/app/gateway/call.go:829-844 | A one-turn run in which the call sends the second of two new events and is past the first |
| CallStream.EmptyPageIffAllHidden | internal/domain/call/read.go:120-147 | A page is empty exactly when its first k requested rows are all hidden |
| CallStream.HiddenPageStalls | internal/domain/call/read.go:120-147 | For every page size a log on which the stream stalls in front of a wanted event |
| Base64Url.RoundTrip | internal/app/gateway/page.go:28-57 | Unpadded base64url of RFC 4648 sections 5 and 3.2 decodes what it encodes, for all byte strings |
| PageToken.PageSize | internal/app/gateway/page.go:17-26 | 0 gives 50, sizes from 1 to 200 are honoured, larger ones give 200 |
| PageToken.NumberOfMinted | internal/app/gateway/page.go:28-88 | A minted token yields its number under its own prefix and an error under any other colon-free prefix |
| PageToken.OffsetRoundTrip | internal/app/gateway/page.go:28-57 | Every int offset survives minting and decoding |
| PageToken.OffsetWrongPrefix | internal/app/gateway/page.go:37-57 | An offset token is refused under any other colon-free prefix |
| PageToken.SequenceRoundTrip | internal/app/gateway/page.go:59-88 | Every uint64 sequence survives minting and decoding |
| PageToken.SequenceWrongPrefix | internal/app/gateway/page.go:68-88 | A sequence token is refused under any other colon-free prefix |
| PageWalk.OffsetCodecSound | internal/app/gateway/page.go:28-57 | The concrete offset tokens satisfy what the walks need |
| PageWalk.SequenceCodecSound | internal/app/gateway/page.go:59-88 | The concrete sequence tokens satisfy what the walks need |
| PageWalk.ListRows | internal/app/gateway/call.go:130-155 | The slicing handler returns the page the walk lemmas speak of |
| PageWalk.GuardedWalk | internal/app/gateway/call.go:130-155 | The token is empty exactly when the pages cover the list, and then they concatenate to it |
| PageWalk.GuardedWalkStops | internal/app/gateway/chat.go:384-409 | No guarded walk goes on after the list is covered |
| PageWalk.UnguardedWalk | internal/app/gateway/chat.go:125-152 | Pages add up to the list, but the walk of a non-empty list ends in an empty page whose token repeats |
| PageWalk.FinishedWalk | internal/app/gateway/chat.go:454-485 | A finished look-ahead walk returned exactly the specified part of the messages |
| PageWalk.LookAheadExact | internal/domain/conversation/messages.go:72-87 | That part is every visible message exactly when nothing visible lies beyond the first window with a hidden row |
| PageWalk.LookAheadWalk | internal/app/gateway/chat.go:454-485 | A finished walk is complete exactly under that condition |
| PageWalk.LookAheadWithoutHidden | internal/app/gateway/chat.go:454-485 | With no hidden rows the walk returns the whole list |
| PageWalk.LookAheadTerminates | internal/app/gateway/chat.go:454-485 | The walk is finite whatever is hidden |
| PageWalk.HiddenRowEndsWalk | internal/domain/conversation/messages.go:72-87 | Concrete list on which a deleted message hides a later one for good |
| Overlay.GroupByConversation | internal/app/gateway/chat.go:1704-1715 | Each listed conversation gets exactly its devices, keyed by account and device, the last one listed winning |
| Overlay.BuildOverlay | internal/app/gateway/chat.go:1718-1772 | Walking the device map in any order yields the overlay of that enumeration |
| Overlay.OverlayForgetsMapOrder | internal/app/gateway/chat.go:1718-1772 | Any two enumerations of the map give the same overlay |
| Overlay.OverlayCounts | internal/app/gateway/chat.go:1718-1772 | required = untrusted + compromised = number of blocked devices; the headline hint is the first device's |
| Overlay.BlockedListExact | internal/app/gateway/chat.go:1733-1770 | The blocked list is every device once, compromised first, then by account, then by device |
| Overlay.BlockedEntry | internal/app/gateway/chat.go:1756-1770 | Each entry shows the account, ID, fingerprint and trust of its device (untrusted when unknown) and what to do about it |
| Overlay.CounterCounts | internal/app/gateway/chat.go:1718-1732 | The compromised counter counts the entries shown as compromised |
| Overlay.DeviceSetExact | internal/app/gateway/chat.go:1704-1715 | The set of a conversation holds, for each key, the last listed device of that key that names the conversation |
| Overlay.PrecedesIsListedBefore | internal/app/gateway/chat.go:1733-1755 | The comparison function is that lexicographic order |
| SendGate.EncryptedSendState | internal/app/gateway/chat.go:1890-1923 | The decision loop computes the specified flag and reason |
| SendGate.SendFlagIsConjunction | internal/app/gateway/chat.go:1890-1923 | The flag is a conjunction over all coverage entries, and set exactly when there is no reason |
| SendGate.ReasonIs | internal/app/gateway/chat.go:1890-1923 | Why a send is refused, in this order: kind of chat, failed lookup, the first entry out of order, untrusted devices where trust is required |
| SendGate.ReasonForgetsOrder | internal/app/gateway/chat.go:1890-1923 | The reason is order independent unless both kinds of bad entry occur |
| SendGate.ReasonDependsOnOrder | internal/app/gateway/chat.go:1890-1923 | When both occur, two orders of the same entries give different reasons |
| FieldMask.UpdateParams | internal/app/gateway/chat.go:2456-2581 | The whole call, default paths and missing request included, is the fold over its parsed paths |
| FieldMask.FoldFails | internal/app/gateway/chat.go:2484-2566 | Refused exactly when some path is unknown or names one setting while the request carries none |
| FieldMask.FieldOutcome | internal/app/gateway/chat.go:2484-2566 | Every field but the trust flag: the requested value if some path covers it, else unchanged |
| FieldMask.TrustOutcome | internal/app/gateway/chat.go:2552-2563 | The trust flag is decided by the last covering path |
| FieldMask.OtherOutcomes | internal/app/gateway/chat.go:2484-2581 | Title, description, avatar and settings are set exactly when a path names them |
| FieldMask.MaskRefused | internal/app/gateway/chat.go:2484-2566 | From the strings of the mask: refused exactly when a trimmed name is none of the fifteen, or asks for a single setting of a request without settings |
| FieldMask.MaskTexts | internal/app/gateway/chat.go:2484-2494 | From the strings of the mask: title, description and avatar are set exactly when named |
| FieldMask.MaskAdmins | internal/app/gateway/chat.go:2495-2509 | The two admin settings are what the request says when named, singly or all at once, else unchanged |
| FieldMask.MaskAllowed | internal/app/gateway/chat.go:2495-2527 | So are the three settings of what is allowed |
| FieldMask.MaskRequired | internal/app/gateway/chat.go:2528-2551 | So are encryption and join approval |
| FieldMask.MaskModes | internal/app/gateway/chat.go:2534-2545 | So are pinning and slow mode |
| FieldMask.MaskTrust | internal/app/gateway/chat.go:2552-2563 | The last of the three names that write the trust flag decides it: the flag itself when named alone, else the policy, else the flag |
| FieldMask.NoMask | internal/app/gateway/chat.go:2464-2481 | Without a mask everything the request holds is taken over |
| FieldMask.OrderMattersOnlyForTrust | internal/app/gateway/chat.go:2456-2581 | Permuting or repeating paths changes nothing but possibly the trust flag, failure included |
| FieldMask.OrderDoesNotMatter | internal/app/gateway/chat.go:1599-1624 | Unless the policy contradicts the flag and both are written, nothing at all changes |
| FieldMask.OrderMatters | internal/app/gateway/chat.go:1599-1624 | When it does contradict, two last paths give two results |
| BotUpdates.BuildUpdatesForEvent | internal/domain/bot/worker.go:117-202 | The method with its early exits and its member loop is the specified build, errors included; what that is in terms of event and stores is `BotBuild.BuildIsRight` |
| BotBuild.BuildIsRight | internal/domain/bot/worker.go:117-202 | For every event and stores: when building fails; and otherwise the entries are for exactly the active bots, present, not banned and not the author, that the rule of the chat or of the membership change reaches, in member order, each with the type, key, times and rendering of the event; none for an unknown or bot author, another event type or a message not found |
| BotBuild.GatherIsRight | internal/domain/bot/worker.go:156-199 | The member loop: which members get an entry, what is in it, and when it fails |
| BotBuild.TurnIsRight | internal/domain/bot/worker.go:204-295 | One turn of that loop for any member, message and membership events |
| BotBuild.BuiltChangesAreRight | internal/domain/bot/worker.go:204-264 | Every membership entry built says who changed whom and when, and how the target stands now and stood before, for each kind of change |
| BotUpdates.EntriesForReceivers | internal/domain/bot/worker.go:156-199 | The entries go to exactly the members to be told, one each, in member order |
| BotUpdates.EntryIff | internal/domain/bot/worker.go:156-199 | An entry is made exactly for an active bot other than the actor, present and not banned, that the routing rules reach |
| BotUpdates.EntryFacts | internal/domain/bot/worker.go:204-295 | Each entry has exactly the payload its type names; my_chat_member exactly when the target is that bot |
| BotUpdates.EntryShowsChange | internal/domain/bot/worker.go:204-264 | A membership update names actor, time and target, the status now and a status before that fits the change |
| BotUpdates.OneEntryPerBot | internal/domain/bot/worker.go:156-199 | One event yields at most one entry for a bot |
| BotUpdates.DepartedBotHearsNothing | internal/domain/bot/worker.go:156-159 | my_chat_member reaches only a bot still present, so a "removed" update to the bot itself shows no change |
| BotUpdates.StatusTransition | internal/domain/bot/worker.go:374-411 | Someone added had left, someone removed had not, and role changes show only through the role |
| BotUpdates.SnapshotSurvivesEdits | internal/domain/bot/worker.go:297-316 | An update shows the message as the event recorded it whatever was edited later, exactly unless an unrecorded preview flag changed |
| BotUpdates.NormalizeTwice | internal/domain/bot/models.go:416-437 | Saving a built entry normalises it a second time without changing it |
| BotUpdates.EventFromKey | internal/domain/bot/worker.go:248-257 | The event ID can be read back from the key of each of its entries |
| BotUpdates.BuildIsGoodBatch | internal/domain/bot/worker.go:117-202 | Over usable stores a build is a batch of normal, well-shaped, untried entries for different bots that name the event |
| BotUpdates.TriggerFacts | internal/domain/bot/callback.go:58-85 | Callback and inline triggers enqueue well-shaped entries that never share a key with fan-out |
| BotUpdates.TriggersCollideIff | internal/domain/bot/inline.go:162-186 | Two triggers share a queue key exactly when they are of one kind, for one bot and query and, for a choice, of one result |
| BotTables.SaveUpdatesValid | internal/domain/bot/pgstore/queue.go:39-95 | Saving a batch keeps rows in update-ID order below the sequence |
| BotTables.InsertIsExact | internal/domain/bot/pgstore/queue.go:39-95 | No two rows share bot, event and type: an entry that would repeat a row changes nothing but the next ID, any other becomes the last row |
| BotTables.DeleteValid | internal/domain/bot/pgstore/queue.go:170-238 | So does deleting |
| BotTables.RetriedAt | internal/domain/bot/pgstore/queue.go:263-305 | A retry adds one attempt and reschedules its row, and changes no other row |
| BotTables.PendingExact | internal/domain/bot/pgstore/queue.go:98-168 | A read returns wanted rows in ID order within the limit and passes over no older wanted row |
| BotTables.PendingIsFirst | internal/domain/bot/pgstore/queue.go:98-168 | A read returns the first rows of the bot, from the offset on and due, of the types the filter names, or of every type if it names none |
| BotTables.AcknowledgeIsExact | internal/domain/bot/pgstore/queue.go:170-188 | Acknowledging removes the rows of the bot below the offset and no others |
| BotTables.WebhookSetEffect | internal/domain/bot/queue.go:65-102 | Polling is blocked exactly when the trimmed URL is not blank; other bots are untouched; rows go only on request |
| BotHooks.SetWebhookStores | internal/domain/bot/models.go:395-414 | Refused for an empty URL alone; otherwise what is stored is what was asked for, trimmed, each named type once, forty connections by default, the creation time of an existing webhook; rows go only on request and only this bot's |
| BotHooks.DeleteWebhookTakes | internal/domain/bot/queue.go:105-123 | Deleting takes this bot's webhook alone, and its rows only on request |
| BotService.Store.SaveUpdate | internal/domain/bot/pgstore/queue.go:39-95 | Insert, or keep the row with the same key and spend the ID |
| BotService.Store.DeleteMatching | internal/domain/bot/pgstore/queue.go:170-238 | Exactly the matching rows go, and whether there were any is reported |
| BotService.Store.RetryUpdate | internal/domain/bot/pgstore/queue.go:263-305 | The named row alone gets one more attempt and its next schedule, row by row, and whether it was there is reported |
| BotService.Store.End | internal/domain/bot/pgstore/store.go:42-78 | A commit takes over the whole transaction, a rollback nothing but spent IDs |
| BotService.Updates | internal/domain/bot/queue.go:148-157 | Payloads with their row's ID, in order |
| BotService.GetUpdates | internal/domain/bot/queue.go:10-62 | A conflict exactly while a webhook with a URL is stored, and then nothing is returned or deleted; otherwise the rows of the bot below the offset go, and what is returned are the first rows of the types the filter names that the last look finds |
| BotService.LookedIsFirstFind | internal/domain/bot/queue.go:36-61 | The long poll answers from the first look that finds something, else from the last, and never when cancelled |
| BotService.LookedIsRight | internal/domain/bot/queue.go:36-61 | What a long poll returns are the first rows asked for in the tables its last look finds, each under its own ID |
| BotService.ClampLimit | internal/domain/bot/service.go:90-99 | With a positive maximum the limit ends up between 1 and it; limits in range are honoured |
| BotService.SetWebhook | internal/domain/bot/queue.go:65-102 | Drop and upsert commit together or not at all |
| BotService.DeleteWebhook | internal/domain/bot/queue.go:105-123 | Drop and delete commit together or not at all; a missing row is no error |
| BotService.FinishDelivery | internal/domain/bot/worker.go:477-535 | Commits exactly when the row is still there; then a 2xx answer removes that row alone, and a failure gives it one more attempt at now + min(initial * 2^attempts, cap), or now + initial the first time, and leaves the other rows; the webhook row tells the outcome |
| BotService.AnswerDelivers | internal/domain/bot/worker.go:477-552 | The same of the table functions, for every answer |
| BotHooks.DeliveryWritesBack | internal/domain/bot/worker.go:477-535 | Whatever the answer, a committed delivery leaves the configuration it was started with, and no other bot's changes |
| BotHooks.DeliveryKeepsConfigIff | internal/domain/bot/worker.go:477-535 | URL, secret, types and connection limit are kept exactly when the stored ones are the normalised ones read at the start of the round |
| BotHooks.StaleWriteBack | internal/domain/bot/worker.go:477-535 | For both answers: a webhook deleted after it was read is stored again and blocks polling again |
| BotHooks.StepKeepsNormal | internal/domain/bot/models.go:395-414 | Every step keeps stored webhook rows in normal form, so reading one and writing it back changes no configuration |
| BotHooks.RunKeepsNormal | internal/domain/bot/models.go:395-414 | In every run all webhook rows, stored and read by a round, are in normal form |
| BotHooks.DeliverKeepsIff | internal/domain/bot/worker.go:477-535 | A committed delivery keeps its bot's configuration exactly when that is still the one its round has read, and undoes the change otherwise |
| BotHooks.RoundKeepsConfig | internal/domain/bot/worker.go:428-455 | From the moment a round reads the webhooks, over every run with no committed change of that bot's webhook, its configuration is kept, whatever is delivered |
| BotService.ProcessEvent | internal/domain/bot/worker.go:90-112 | An event's entries and the cursor move in one transaction or not at all |
| BotService.ProcessFanout | internal/domain/bot/worker.go:67-115 | The round commits a prefix of the loaded events and stops at the first failure with nothing of that event saved |
| BotPipeline.StepConserves | internal/domain/bot/worker.go:67-115 | Every step keeps: pending rows are exactly the waiting part of the history, unchanged but for retry state |
| BotRuns.OnlyRetiringSteps | internal/domain/bot/queue.go:24-28 | A waiting row is retired only by an offset beyond its ID, its own 2xx delivery, or a drop request for its bot |
| BotRuns.StepExtends | internal/domain/bot/queue.go:75-80 | No step forgets a row or changes a fate already met |
| BotRuns.StepNumbers | internal/domain/bot/pgstore/queue.go:39-95 | Update IDs grow along the history, so each record is one row |
| BotRuns.SaveFresh | internal/domain/bot/pgstore/queue.go:49-72 | The batch of an unprocessed event meets no taken key: every entry becomes a row |
| BotRuns.AboveIsRest | internal/domain/bot/worker.go:76-84 | What is loaded above the cursor is exactly the unprocessed rest of the log |
| BotRuns.StepKeepsFanout | internal/domain/bot/worker.go:67-115 | Every step keeps: fan-out history is the concatenation of the batches of the log prefix below the cursor, each built in the world and at the time recorded with it |
| BotRuns.StepRecordsTurn | internal/domain/bot/worker.go:90-112 | A step records its world and clock exactly when its build succeeds and its transaction commits; saving a built batch never fails |
| BotRuns.RunRecordsTurns | internal/domain/bot/worker.go:90-112 | What a run has recorded are the worlds and clocks of its own committing steps, in order |
| BotRuns.RunKeepsInv | internal/domain/bot/worker.go:67-115 | Conservation, exactly-once fan-out, final fates and unique IDs over every run with aborts and restarts |
| BotRuns.FanoutExactlyOnce | internal/domain/bot/worker.go:67-115 | From empty tables: the entries ever committed are, in order and once each, what precisely the events at or below the cursor build in the worlds and at the times of the steps that committed them |
| BotRuns.RoundRuns | internal/domain/bot/worker.go:67-115 | A round of the worker method is a run of the transition system with the same tables |
| BotPolling.AnswerIsNext | internal/domain/bot/queue.go:16-46 | An answer is exactly the next rows the client has not seen, up to the limit |
| BotPolling.ReceivedIsPrefix | internal/domain/bot/queue.go:16-46 | In a polling-only run the received updates are always the first ones saved for the bot, no gap, no repeat, even with lost answers |
| BotPolling.PollsCatchUp | internal/domain/bot/queue.go:16-46 | With a positive limit and nothing new, each answered poll makes progress until everything is received |
| BotPolling.WaitIsPoll | internal/domain/bot/queue.go:24-62 | With rows visible in ID order, a call that deletes and then looks again and again gives what one poll at its last look gives |
| BotPolling.FilteredAckLosesIff | internal/domain/bot/queue.go:24-46 | With a type filter, acknowledging an answer deletes rows never shown exactly when a row below the new offset is of a type held back |
| BotLate.CallIsMoves | internal/domain/bot/queue.go:24-62 | A call deletes what the acknowledging move deletes and returns what the look at the rows of its last look finds |
| BotLate.LostIff | internal/domain/bot/queue.go:24-46 | With rows visible in any ID order, delete and looks apart: a row is lost exactly when a delete with a larger offset finds it before any received answer has held it; nothing is received twice |
| BotLate.InTimeNeverLost | internal/domain/bot/queue.go:24-46 | A row that becomes visible at or above the offset is never lost |
| BotLate.ClimbingIff | internal/domain/bot/queue.go:24-46 | What is received is in ID order exactly when no received answer begins below the offset |
| BotLate.LateRowReceived | internal/domain/bot/queue.go:38-46 | A run in which a look after the delete returns a row below the offset |
| BotLate.LateRowLost | internal/domain/bot/queue.go:24-28 | A run in which the next delete takes such a row unseen |
| Backoff.Delay | internal/domain/bot/worker.go:538-552 | The doubling loop with 64-bit wrap-around |
| Backoff.CappedDoubling | internal/domain/bot/worker.go:538-552 | Without overflow the delay is min(initial * 2^(n-1), cap), the first one uncapped |
| Backoff.DelayIsPromised | internal/domain/bot/worker.go:538-552 | After any number of attempts: the initial delay at first, then min(initial * 2^attempts, cap) when nothing overflows, positive for a positive cap; an initial delay that is not positive counts as one second |
| Backoff.DelayIsCappedDoublingIff | internal/domain/bot/worker.go:538-552 | For every initial delay and cap: the formula holds for all attempts exactly when no doubling overflows |
| Backoff.NoOverflowBelow62 | internal/domain/bot/worker.go:538-552 | Initial delays below 2^62 and caps up to 2^62 never overflow |
| Backoff.IntermediatesBounded | internal/domain/bot/worker.go:538-552 | Without overflow no intermediate value reaches twice the cap |
| Backoff.NonDecreasingIff | internal/domain/bot/worker.go:538-552 | For every initial delay and cap: delays never shrink exactly when the initial one is within the cap and nothing overflows |
| Keyboard.Normalize | internal/domain/bot/models.go:450-484 | Refused exactly when a button is unusable or every row is empty; otherwise trimmed rows without the empty ones |
| Keyboard.NormalizedIff | internal/domain/bot/models.go:450-484 | Accepted exactly when every button has a non-blank label and exactly one of callback data and URL, and there is a button |
| Keyboard.NormalizedAt | internal/domain/bot/models.go:450-484 | The rows that hold a button stay in order and every button stays in its place, its three texts trimmed |
| Keyboard.NormalizeIdempotent | internal/domain/bot/models.go:450-484 | Normalising twice is normalising once |
| Keyboard.CallbackAllowed | internal/domain/bot/markup.go:76-89 | Allowed exactly when some button carries the trimmed, non-blank data |
| Metadata.CloneMetadata | internal/domain/bot/meta.go:9-28 | Each surviving key, with the value of some entry that trims to it, in any map order |
| Metadata.CloneUnique | internal/domain/bot/meta.go:9-28 | One possible clone when keys that trim alike carry equal values |
| Metadata.CloneAmbiguous | internal/domain/bot/meta.go:9-28 | Several possible clones otherwise |
| Metadata.TrimmedIsUnambiguous | internal/domain/conversation/service.go:79-96 | Trimmed keys, as the conversation layer stores them, leave one possible clone |
| Metadata.CloneIsClean | internal/domain/bot/meta.go:9-28 | And that clone is the entries with non-blank keys and values, values trimmed |
| Metadata.CloneFixesClean | internal/domain/bot/meta.go:9-28 | Cloning a clone changes nothing |
| Metadata.MarkupReadsBack | internal/domain/bot/markup.go:58-74 | Reading markup back after writing it returns the normalised keyboard, given a faithful JSON codec |
| Metadata.CopyMetadata | internal/domain/bot/relay.go:104-118 | A copy fails exactly on a bad keyboard; otherwise it keeps every entry of a clone of the source outside caption and markup, and reads back as the caption by the rule and the normalised keyboard |
| Metadata.ComposedIsCopy | internal/domain/bot/relay.go:104-118 | The composition of clone, keyboard and caption has those properties, for every source and request |
| Metadata.CopyOutcome | internal/domain/bot/relay.go:104-118 | A copy keeps every entry outside caption and markup and reads back as the caption and keyboard chosen |
| Metadata.CopyOfCopy | internal/domain/bot/relay.go:104-118 | A plain copy of a copy has the same metadata |
| Metadata.GoTrim | internal/domain/bot/meta.go:9-28 | Go's TrimSpace has the laws the other lemmas ask of trimming |
| Scores.ScoreStore.SetGameScore | internal/domain/bot/score.go:57-90 | Accepted exactly when well formed and not below the stored score unless forced; only that row changes |
| Scores.BestAndFirst | internal/domain/bot/score.go:66-90 | After any unforced run a row holds the best score, when it was last reached, and the time of the first valid submission |
| Scores.StaleSaveIff | internal/domain/bot/score.go:66-90 | A save does what the whole call would do at that moment exactly when the call would still be accepted; otherwise it lowers the score |
| Scores.InterleavingIff | internal/domain/bot/score.go:66-90 | With loads and saves interleaved the rows are at all times those of the submissions one after the other, exactly when no save comes after a better one |
| Scores.GetGameHighScores | internal/domain/bot/score.go:100-143 | The table is the ranking of the sorted rows, or an error exactly when an account is missing |
| Scores.RankingExact | internal/domain/bot/score.go:117-143 | Positions 1..n over every listed row: higher scores first, then the earlier, then by account |
| Scores.RankingForgetsOrder | internal/domain/bot/score.go:117-126 | The ranking does not depend on the order the store lists rows in |
| Mesh.GroupFragments | internal/app/federationmeshcore/worker.go:103-119 | Each key collects exactly its fragments, in arrival order |
| Mesh.Bridge.SubmitGroups | internal/app/federationmeshcore/worker.go:121-126 | In any map order each group is submitted at most once, and all of them when none is refused |
| Mesh.Bridge.ProcessOnce | internal/app/federationmeshtastic/worker.go:68-140 | The whole round: what is sent, acknowledged and submitted, and when it succeeds |
| Mesh.Bridge.PullAndSend | internal/app/federationmeshcore/worker.go:73-93 | Everything pulled is sent; exactly the reported IDs are acknowledged, under their lease |
| Mesh.CutJoin | internal/app/federationmeshcore/worker.go:117-122 | A group key gives its peer and link back exactly when the peer holds no NUL |
| Mesh.SubmitsOwnFragments | internal/app/federationmeshcore/worker.go:103-126 | Each submission carries all and only the fragments of its own normalised peer and link, in arrival order |
| Mesh.EachIsSubmitted | internal/app/federationmeshcore/worker.go:103-126 | Every fragment whose names are known, its own or the configured ones, is in the submission under exactly those names |
| Mesh.GroupsPartition | internal/app/federationmeshcore/worker.go:103-126 | In any visiting order the groups together hold every accepted fragment as often as it came |
| Mesh.RoundConserves | internal/app/federationmeshcore/worker.go:103-126 | A round whose submissions all succeed passes on every accepted fragment, none twice |

## Left out

- Account visibility: membership filtering of the log and of signals is not modelled; logs range over events the account can see, authentication and per-account errors are absent.
- Transactions: appends to the log are taken in commit order with growing sequences, and, outside `BotLate`, inserts into the queue likewise; IDs that never become rows are modelled as gaps.
- One fan-out worker: two workers sharing the cursor are not modelled; another bot's rows are unconstrained only in `BotPolling`.
- Fan-out worlds: `BotUpdates` reads the stores once per event with one clock reading, and chat, message and plain-text renderings are parameters; an account's trimmed ID and one row per conversation member are assumed of the stores.
- BotUpdates.SnapshotSurvivesEdits: covers the rendered message; routing in groups looks at the message as it is now, so it can still change.
- BotService.GetUpdates: the number and the outcome of the waits before the deadline are parameters; clocks and the step length are not modelled.
- BotPolling.ReceivedIsPrefix: rows become visible in ID order here, which `BotLate` drops, and the client asks for every type; what a filter costs is the subject of `BotPolling.FilteredAckLosesIff`.
- BotLate.LostIff: the client sends one more than the largest ID it has received, which for answers in order is one more than the last; one call at a time.
- Webhook rounds: `processWebhooks` itself is covered by delivery steps with any webhook row and any entry, read at any earlier time; requests, HTTP status text and JSON encoding are outcomes.
- Queue deletions through account removal (a foreign key of the table) are not modelled.
- Inline and callback triggers: only the entries they enqueue; the stored query states, answer checks and random IDs are left out.
- PageWalk.LookAheadWalk: filtering by restrictions and thread is folded into one hidden flag per row.
- Overlay.OverlayCounts: counts are unbounded; the wrap of uint32 counters at 2^32 devices is not modelled.
- SendGate: the coverage lookup is an outcome; rate limits and conversation settings outside it are left out.
- FieldMask: protobuf accessors are record fields; durations are integers of nanoseconds.
- Metadata: JSON encoding is a parameter with a faithful round trip; strings that JSON would alter are outside that assumption. Draft fields other than metadata are copied verbatim and left out.
- Mesh: lower-casing is a parameter; fragments are values, so the defensive copy of payloads is not visible.
- Scores.BestAndFirst: submissions are whole calls here; loads and saves apart are the subject of `Scores.InterleavingIff`.
- Scores: loading the message, the game-shape check and the returned message are left out.
- Call notifier: its subscriber map and dropping channels are those of the sync notifier and not modelled again; in `CallStream` any published event may arrive or be lost.
- Strings are Unicode code points except in page tokens, which are bytes; ordering of IDs is by code point.
- Process wiring, HTTP and gRPC decoding, converters, cryptography, TURN credentials and the Python bridges are left out.
