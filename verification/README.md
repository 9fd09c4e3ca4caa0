# A Dafny model of the agent harness's protocols

The Dafny files here model the parts of `internal/agent` and `internal/agents` that are
protocols rather than plumbing, and prove what they keep. The model backend, the tools,
SQLite, the vaults and the clock are outside: they appear as parameters that may answer
anything. Code that changes things step by step is written as classes and loops; what is
interleaved with other goroutines is also a state machine over the same update functions,
and its results hold for every sequence of enabled steps.

| Files | Subject |
|---|---|
| `Options.dfy`, `Backend.dfy`, `Collections.dfy`, `Ranking.dfy` | optional values; messages and tool calls; two facts about collections; `ORDER BY ... LIMIT` |
| `RunHistory.dfy`, `AgentLoop.dfy`, `RunLaws.dfy`, `RunThreads.dfy`, `RunAnswers.dfy`, `TranscriptLaws.dfy` | `RunLoop`: its moves, the loop, what every run keeps, what becomes of delegated threads, which words become the answer, the transcript |
| `Dispatch.dfy`, `DispatchAnswers.dfy`, `DispatchOrder.dfy` | `dispatchTools`, its goroutines, semaphore and write lock; what each call is told and which files change; when a schedule can be told from running the calls one by one |
| `Slug.dfy`, `ReplicationQueue.dfy`, `ReplicationProtocol.dfy`, `ReplicationBudget.dfy`, `ReplicationRuns.dfy` | memory replication to channel members: concept keys, the queue, what every run keeps, retry budgets, runs that drop a memory |
| `CloudBackoff.dfy`, `CloudQueue.dfy`, `CloudProtocol.dfy` | the cloud vault queue |
| `Sessions.dfy` | the run slot and the bounded history |
| `PrefetchCache.dfy` | the LRU/TTL prompt cache |
| `VaultReconnector.dfy` | vault clients and the tools they register |
| `SwarmBridge.dfy`, `CloudSync.dfy`, `StreamFilters.dfy` | streams: batching, paging, cutting and capping |
| `UserHooks.dfy` | hook files and the hook audit log |

How the agent loop is treated: `RunHistory.NextMove` reads the next event off the list of
past events alone, asking questions such as "was a thread ever collected" where the code
keeps a flag. `AgentLoop.RunLoop` is the loop with its flags, counters and early returns,
proved to make exactly these moves. The laws are then proved of every history, and told from its events by position and
tool name.

Where the code does not do what one might expect of it:

- A transcript is well paired exactly when no response mixed malformed tool calls with
  good ones; after a mixed response the good calls stay unanswered in the transcript.
- The barrier that keeps a lead from abandoning its threads is spent by any earlier wait, also
  by one made before anything was delegated or one that found nothing
  (`RunThreads.EarlyWaitSpendsBarrier`). It is certain to hold exactly for a delegation with no
  wait before it (`RunThreads.BarrierIff`).
- A read or grep is always run concurrently, so it may overtake an earlier write to a file
  it looks at, or an earlier shell command; a write to a file may overtake an earlier grep;
  and two spellings of one file count as two files. Running the batch one by one cannot be
  told apart exactly when no call overtakes an earlier one it clashes with, that is, when
  neither may change what the other looks at (`DispatchOrder.MatchesIffInOrder`). Reads never
  clash.
- The eviction scan of the prompt cache uses "" for "none found yet". It is LRU in every
  map order exactly unless the oldest entry of several is the one of the empty key.
- Memory replication takes any content in the answer to its find for a replica, and any write
  without a transport error for a stored one; the tool-error flag of a result is not looked
  at. A memory can so leave the queue with nothing in the vault. `ReplicationQueue.SilentLossIff`
  names the answers that do it, `ReplicationProtocol.RunSafeIff` the runs that are free of it,
  and `ReplicationRuns` holds runs that do it.
- Even with truthful vaults the newest content can be dropped, because an older memory is
  stored under the same key (`OlderReplicaCounts`) or because the row was rewritten while its
  old content was pushed (`RefreshedRowIsDropped`); `ReplicationProtocol.DropIff` says exactly
  when.
- The queue table can reuse row ids, so the failure of a stale drainer may charge another
  memory's row (`StaleChargeHitsAnother`). With two drainers a failed drain can also give
  attempts back: exactly when the row has two more than the drainer's snapshot (`ChargeIff`).
- A dead cloud row revived by a new write keeps its spent attempts: one refusal kills it.
- A cloud write that overlaps the push of the same memory can end completed and unsent: exactly
  when the completing update finds other content in the row than was fetched, a test that
  update could make (`CompletedIsSentIff`, `RunSentIff`).
- Registration skips invalid tool names while `toolNames` keeps them, and a builtin whose
  name any vault of the session ever listed is gone once the vault is closed.
- A cloud sync marks a time at least its own clock. What the server first holds between two
  syncs is fetched by the second exactly if it is newer than that mark (`CloudSync.SyncTwice`).
- History trimming takes any system message in front of the history for the system prompt, so a
  late one can be pinned there for good. The history is the window of the whole log, however
  the log was cut into appends, exactly for the logs that `Sessions.WindowIff` names.
- The truncation flag of hook output also rises on an empty write to a full buffer.
- `Reload` reads the paths of the last successful load; its comment also names attempted ones.
- The `denied` flag never decides anything: a denial is raised only by a dispatch, after
  which `toolsRan` holds. The speech hint is sent once at most because its turn is the last.

Four inputs are modelled that nothing in the repository produces today: the empty cache key
(callers join an agent and a vault name with a colon, internal/agent/orchestrator_prefetch.go:229
and 273), a response with `ParseErrors` (declared at internal/backend/backend.go:155, filled by
no shipped backend), an empty write to a full hook buffer, and a system message passed to
`appendHistory` (its callers pass user, assistant and tool messages).

## Model

| member | source | states |
|---|---|---|
| `AgentLoop.RunLoop` | internal/agent/loop.go:501-899 | The loop with its flags makes exactly the moves that the history alone calls for, and returns the verdict the history calls for |
| `AgentLoop.SpeechTurn` | internal/agent/loop.go:607-697 | A speech-only turn ends the run: hint, one buffered completion, dropped calls, the fallback chain for an empty answer, and a cut stream overriding any backend error |
| `AgentLoop.MalformedTurn` | internal/agent/loop.go:722-739 | A malformed turn is asked again until the third in a row, which gives up with an error |
| `AgentLoop.ToollessTurn` | internal/agent/loop.go:743-822 | The barrier, the nudge or the end, as the history calls for |
| `AgentLoop.WorkTurn` | internal/agent/loop.go:825-893 | A batch is dispatched and its answers decide: cancelled, wall line, direct answer, wait answer, or on |
| `AgentLoop.ReadResults` | internal/agent/loop.go:828-866 | Flags, wall line, wait answer and tool messages are those of the last answer of each kind |
| `AgentLoop.StopTurnPersist` | internal/agent/loop.go:1064-1079 | Ends without another completion on the persisted text, or else on the trimmed speech, adding a message only if it is not empty |
| `AgentLoop.WallDenyAnswerDirectly` | internal/agent/loop.go:1024-1060 | One completion with delegation withheld; its answer counts only if sayable, and the retry prompt is not kept in the transcript |
| `AgentLoop.LastHumanUserText` | internal/agent/missing_tool_speech.go:64-76 | The backward scan finds the last user message that is neither blank nor the harness's own, or there is none |
| `AgentLoop.StepInStep` | internal/agent/loop.go:537-556 | After every event the flags still say of the past what the history says, and the messages are the transcript of the history |
| `RunLaws.MovesAreAdmitted` | internal/agent/loop.go:588-893 | The protocol table: which event may follow which, under which bounds |
| `RunLaws.RunIsBounded` | internal/agent/loop.go:588-822 | In every run: turns within the limit, one completion per turn plus one at most, one barrier, nudges within their cap, no third retry |
| `RunLaws.RunBounds` | internal/agent/loop.go:588-899 | At most MaxTurns + 1 completions, the extra one only to answer a wall line directly, and at most 2 MaxTurns + 1 events |
| `RunLaws.ThirdStrike` | internal/agent/loop.go:721-741 | A run gives up on parse errors exactly when its last three turns were malformed with only retries between |
| `RunLaws.FinishedMeansFinished` | internal/agent/loop.go:540-697 | After a dispatch that collected a finished thread or did the shell work: no further dispatch, no ordinary turn, one completion at most, over within two events |
| `RunLaws.DispatchIsFaithful` | internal/agent/loop.go:824-829 | A dispatch of model calls happens exactly after a well-formed turn with calls, and runs exactly those calls, once each, in order |
| `RunThreads.NoThreadIsAbandoned` | internal/agent/loop.go:743-791 | With the barrier available, at a regular stop every successful delegation has a wait after it or a wait before it, unless a shell command did the work or the wall was hit; so nothing delegated ahead of the first wait goes uncollected |
| `RunThreads.BarrierIff` | internal/agent/loop.go:743-850 | From the dispatch of an uncollected delegation, in every world that leads there, every regular stop without shell work or wall has a wait in between, exactly if the barrier is available and no wait came before the delegation, or no turn is left and the batch collected no thread |
| `RunThreads.EarlyWaitSpendsBarrier` | internal/agent/loop.go:743-850 | For any wait answer without a finished thread, a run that waits, delegates and stops without another wait |
| `RunAnswers.TurnIsHeard` | internal/agent/loop.go:636-719 | An ordinary completion's calls and parse errors are kept as promoted, and its words too, filtered after the human's ask exactly if some tool ran before |
| `RunAnswers.ToollessTurnDecides` | internal/agent/loop.go:743-822 | A turn without calls gets the barrier exactly if something was delegated, nothing waited for and the wait tool is granted; else a nudge exactly if some tool ran, tools and nudges are left and the words announce more; else the run ends on the turn's own words, or those before the barrier if it said nothing; rewritten words replace the last message |
| `RunAnswers.SpeechIsTheAnswer` | internal/agent/loop.go:637-697 | The speech-only answer is the sayable part of the completion (of the held stream, if it was cut); failing that the words of the turn before the finishing dispatch; failing that those before the barrier; failing that the last shell output of that dispatch |
| `RunAnswers.DispatchDecides` | internal/agent/loop.go:827-893 | After a batch: cancelled with the turn's words; or the last wall line is told if the human named the teammate, and answered directly if not, unless he asked for Sam; or the last specialist's answer ends the run; or it goes on |
| `RunAnswers.BarrierDecides` | internal/agent/loop.go:743-791 | The same after the barrier, which has one answer |
| `RunAnswers.DispatchFinishes` | internal/agent/loop.go:602-613 | A run that goes on turns to its last words exactly if the batch reported a finished thread or did shell work, under the hint for the one or the other |
| `RunAnswers.OtherAnswers` | internal/agent/loop.go:519-528 | The early image answer and the direct answer are said as they are, and added to the messages |
| `RunAnswers.DelegationWithheld` | internal/agent/loop.go:1027-1033 | The direct answer's completion is granted every tool but delegation and consultation, in order |
| `RunAnswers.IrregularStopKeepsWords` | internal/agent/loop.go:647-899 | A cancelled, failed or exhausted run hands back the latest turn's words, or those before the barrier if it said nothing and was nudged |
| `RunLaws.RunsAreUnique` | internal/agent/loop.go:501-899 | One world, one run: two finished histories are equal |
| `TranscriptLaws.TranscriptShape` | internal/agent/loop.go:515-899 | The caller's messages are an unchanged prefix; the rest pairs every call with its answer, same ids and order, exactly when no response mixed malformed and good calls, and then holds every dispatched answer in order |
| `TranscriptLaws.ScanOfRun` | internal/agent/loop.go:826-866 | The same pairing at every point of a run, with the calls open just then |
| `TranscriptLaws.VerdictTellsWhy` | internal/agent/loop.go:501-899 | Each of the five stop reasons exactly: a regular stop on spoken words or a settling dispatch, cancelled after a dispatch with a done context, error after a broken or empty completion, three malformed turns, or the last turn used up with nothing settled; no transcript only after a broken completion |
| `Dispatch.IsIndependentTool` | internal/agent/loop.go:456-496 | The counting loop decides exactly: a read, or the only write of the batch to a named file |
| `Dispatch.Partition` | internal/agent/loop.go:404-450 | The two index lists are increasing, disjoint and complete |
| `Dispatch.DispatchTools` | internal/agent/loop.go:404-450 | Whatever enabled step the scheduler takes, the dispatch ends, with one answer per call, and with the files and answers of one-by-one execution for an in-order batch |
| `Dispatch.EveryScheduleMatchesOneByOne` | internal/agent/loop.go:404-450 | Every finished interleaving of a batch in which no call overtakes an earlier one it clashes with leaves the files of one-by-one execution, and slot i holds the answer of call i |
| `Dispatch.EveryScheduleIsSafe` | internal/agent/loop.go:419-447 | At every point: the semaphore bound, one write callback at a time, serial calls alone, no two live writes naming one path, no two live calls of an in-order batch that clash, slots filled by their own call |
| `Dispatch.WriteBatchInOrder` | internal/agent/loop.go:468-486 | A batch of writes that spells each file one way is always in order: calls on one path are all serial |
| `Dispatch.ReadBatchAnswers` | internal/agent/loop.go:461-467 | A batch of reads, of the same files or of none: every schedule leaves the files alone and answers each call as if it were the only one |
| `DispatchOrder.MatchesIffInOrder` | internal/agent/loop.go:456-496 | Whatever the tools do within what they see and touch, every schedule matches one-by-one execution, exactly when no call overtakes an earlier one it clashes with |
| `Dispatch.StepDecreases` | internal/agent/loop.go:404-450 | Every step is progress |
| `Dispatch.CanFinish` | internal/agent/loop.go:404-450 | No deadlock: from every reachable state some schedule finishes |
| `DispatchAnswers.EveryCallAnswered` | internal/agent/loop.go:128-300 | After any schedule of any batch a refused call's slot holds its refusal; any other the user's rejection of the content shown, or what the tool said to a view it had after being let through; a write whose callback rejects in any case is rejected, and a call nobody stops is run |
| `DispatchAnswers.RejectedLeaveNoTrace` | internal/agent/loop.go:273-285 | A path that only refused calls, and writes rejected in any case, may touch is as it was at every point |
| `DispatchAnswers.OnlyWriterDecides` | internal/agent/loop.go:273-330 | A path that one call of the batch alone may touch ends as it was if that call was turned down, and otherwise as its tool left it on the view its answer is for |
| `Slug.NormalizeIsJoinedWords` | internal/agent/memory_replicator.go:767-778 | A key is the first 64 characters of the lower-cased words joined by hyphens |
| `Slug.NormalizeShape` | internal/agent/memory_replicator.go:767-778 | Only letters, digits and single inner hyphens, at most 64 long, a trailing hyphen only at length 64 |
| `Slug.NormalizeTwice` | internal/agent/memory_replicator.go:767-778 | A second application drops at most the hyphen the cut left; then nothing changes |
| `Slug.IdempotentIff` | internal/agent/memory_replicator.go:767-778 | Normalizing twice is normalizing once exactly when the joined words are at most 64 long or the cut does not fall right after a hyphen |
| `Slug.NormalizeSeesOnly` | internal/agent/memory_replicator.go:767-778 | A key sees neither the case of a letter, the two foreign runes with an ASCII lower case included, nor which other character separates two words |
| `ReplicationQueue.MemoryReplicator.EnqueueRetry` | internal/agent/memory_replicator.go:386-437 | The upsert, field by field: a new row due in 5 s; a live row's payload and nothing else; a dead row revived with all attempts back; other rows untouched |
| `ReplicationQueue.MemoryReplicator.ReplicateTo` | internal/agent/memory_replicator.go:347-381 | Delivered exactly when a client was free and the find came back with content or the write without an error; then the row is dequeued; the vault gets what it kept of the write |
| `ReplicationQueue.SilentLossIff` | internal/agent/memory_replicator.go:347-381 | Exactly the answers that dequeue a row with nothing in the vault: nothing was stored, and the find had content or an unkept write no transport error |
| `ReplicationQueue.MemoryReplicator.DrainOne` | internal/agent/memory_replicator.go:504-550 | One entry: gone when it counts as delivered, charged one attempt (dead at the fifth) and put off by the wait of that attempt, or untouched when the database fails; no other row moves |
| `ReplicationQueue.MemoryReplicator.DrainBatch` | internal/agent/memory_replicator.go:459-557 | The due rows that wait longest, up to the limit, each treated as its answer says and at its own time, all others untouched, and the number still due at the end |
| `ReplicationQueue.MemoryReplicator.SelectDue` | internal/agent/memory_replicator.go:459-502 | Pending and due rows only, each once, in the order of their retry times; a row left out finds the limit reached and no later retry time taken |
| `ReplicationQueue.MemoryReplicator.PurgeDeadEntries` | internal/agent/memory_replicator.go:563-577 | Deletes exactly the dead rows created over 604800 s ago, and changes no other |
| `ReplicationProtocol.StepKeepsInv` | internal/agent/memory_replicator.go:311-577 | Whatever the vaults answer, status, key, content and delivery invariants survive every step, stale updates included |
| `ReplicationProtocol.NothingLost` | internal/agent/memory_replicator.go:180-577 | In every reachable state, whatever the vaults answer, each key ever queued is since its last upsert in exactly one of three places: queued with its newest content, purged dead, or dequeued as delivered, and then its place is not empty if the vault kept the write; pending means attempts below 5, dead means 5, and pending rows are due within an hour |
| `ReplicationProtocol.StepLosesIff` | internal/agent/memory_replicator.go:311-577 | One step leaves a memory neither queued nor purged nor in the vault exactly when it dequeues a row the vault does not hold |
| `ReplicationProtocol.RunSafeIff` | internal/agent/memory_replicator.go:180-577 | A run keeps every memory, or every newest content, at every point exactly when it never dequeues a row the vault does not hold |
| `ReplicationProtocol.DropIff` | internal/agent/memory_replicator.go:355-381 | What each kind of delivery is worth: a kept write never empties the place, and drops the newest content exactly if that replaced the pushed one and is not in the vault; a find or an unkept write drops exactly what the vault does not hold |
| `ReplicationProtocol.HonestVaultsKeepAll` | internal/agent/memory_replicator.go:180-577 | With vaults that find only what they hold and keep what they accept, no run ever leaves a key without row, purge or replica |
| `ReplicationProtocol.DeliveredDrainDequeues` | internal/agent/memory_replicator.go:440-456 | A drain that counts as delivered removes the very row it fetched and no other |
| `ReplicationBudget.ChargeIff` | internal/agent/memory_replicator.go:504-550 | With any number of drainers a failed drain spends attempts exactly if the row has no more than the snapshot, gives some back exactly if it has two more or above, and hits another memory's row exactly if the fetched one is gone or renumbered |
| `ReplicationBudget.SoloDrainsSpend` | internal/agent/memory_replicator.go:504-550 | With one drainer each failed drain strictly lowers the row's remaining attempts |
| `ReplicationBudget.OnlyRevivalRefills` | internal/agent/memory_replicator.go:419-437 | With one drainer the remaining attempts rise only when an upsert revives a dead row |
| `ReplicationBudget.OnlyChargesDelay` | internal/agent/memory_replicator.go:386-550 | A pending row's next try moves only by a failed drain's charge, to 5, 30, 120, 600 or 3600 s from then |
| `ReplicationBudget.FailedFanOutIsQueued` | internal/agent/memory_replicator.go:309-345 | A first push ends by its last statement or vanishes; if it failed and that statement went through, the memory is queued with its content, pending, a new or revived row with no attempt spent |
| `ReplicationBudget.StaleDrainerRefunds` | internal/agent/memory_replicator.go:504-550 | With two drainers, for any memory, a run in which a failed drain raises them |
| `ReplicationRuns.AnyUnheldRowCanBeLost` | internal/agent/memory_replicator.go:355-366 | From every reachable state one drain whose find has content, flagged as a tool error or not, loses any due row the vault does not hold |
| `ReplicationRuns.UntruthfulVaultLoses` | internal/agent/memory_replicator.go:347-381 | For any memory, runs that lose it with an empty vault: by a find with content, and by a write that was not kept |
| `ReplicationRuns.OlderReplicaCounts` | internal/agent/memory_replicator.go:355-366 | A run with truthful vaults in which a newer memory is dropped because an older one has its key |
| `ReplicationRuns.RefreshedRowIsDropped` | internal/agent/memory_replicator.go:379-456 | A run with truthful vaults in which a row rewritten during its push is dequeued with the older content |
| `ReplicationRuns.StaleChargeHitsAnother` | internal/agent/memory_replicator.go:504-550 | A run in which a stale drainer charges the row of another memory |
| `CloudBackoff.DeterministicIsExact` | internal/agents/cloud_vault_replicator.go:209-217 | In wrapping int64 arithmetic the wait is min(30 s * 2^n, 1 h) for every n |
| `CloudBackoff.DeterministicValues` | internal/agents/cloud_vault_replicator.go:209-217 | In seconds: 30, 60, 120, 240, 480, 960, 1920, and 3600 from then on |
| `CloudBackoff.BackoffBounds` | internal/agents/cloud_vault_replicator.go:209-217 | Between 30 s and 1 h, and with jitter below 1 h plus the jitter bound, for negative attempts too |
| `CloudBackoff.BackoffMonotone` | internal/agents/cloud_vault_replicator.go:209-217 | Never shorter after more attempts |
| `CloudBackoff.NoWrapSlipsThrough` | internal/agents/cloud_vault_replicator.go:209-217 | No product that left the int64 range passes the guard as a short wait |
| `CloudQueue.RetryAtBounds` | internal/agents/cloud_vault_replicator.go:178-199 | The next try is 30 to 3605 s away |
| `CloudQueue.CloudVaultReplicator.EnqueueMemoryOperation` | internal/agents/cloud_vault_replicator.go:243-263 | Refuses exactly the incomplete requests and the operations outside insert, update and delete; otherwise a new row field by field, or the old one with new content, pending and due at once, and nothing else of it or of other rows changed |
| `CloudQueue.CloudVaultReplicator.FetchPendingEntries` | internal/agents/cloud_vault_replicator.go:115-152 | Pending or in-progress due rows, each once, the oldest first; a row left out finds the limit reached and is no older than any taken |
| `CloudQueue.CloudVaultReplicator.ProcessEntry` | internal/agents/cloud_vault_replicator.go:155-205 | After an acknowledged push the cloud holds the memory as the row has it, or does not if the row deletes it, and no other memory changed there; the row is untouched, in progress, completed, or charged one attempt (dead at the last) with 30 to 3605 s to wait, as push and database answered |
| `CloudQueue.CloudVaultReplicator.ProcessBatch` | internal/agents/cloud_vault_replicator.go:97-112 | The ten oldest due rows in order, then the purge of completed and dead rows older than a week; afterwards the cloud agrees with every row whose push was acknowledged |
| `CloudQueue.PushHolds` | internal/agents/cloud_vault_replicator.go:167-181 | A push makes the cloud agree with the row it was made from: a set under its key with agent, concept, text and time, or a deletion, and touches no other key |
| `CloudProtocol.CrashSafe` | internal/agents/cloud_vault_replicator.go:97-263 | With crashes, failing updates and pushes that fail though taken: completed means the present content was acknowledged (or no client, or rewritten mid-push), and then the cloud really agrees with the row; dead means attempts used up, and any other row meets the fetch query's condition within 3605 s, at once if in progress |
| `CloudProtocol.CompletedIsSentIff` | internal/agents/cloud_vault_replicator.go:155-205 | The completing update after an acknowledged push leaves a row that was sent exactly if its content is still the one fetched, and the cloud agreeing with it exactly if the two contents have one effect |
| `CloudProtocol.RunSentIff` | internal/agents/cloud_vault_replicator.go:97-263 | With a client, every completed row was sent as it is (or: the cloud agrees with it), at every point of a run, exactly when no completing update finds its row's content (or its effect) changed |
| `CloudProtocol.OnlyDoneRowsDeleted` | internal/agents/cloud_vault_replicator.go:275-284 | A row is deleted exactly by a purge, once completed or dead and over a week old |
| `CloudProtocol.RevivedRowHasOneTry` | internal/agents/cloud_vault_replicator.go:243-263 | A revived dead row keeps its attempts and dies at the next refusal |
| `CloudProtocol.OverlapCompletesUnsent` | internal/agents/cloud_vault_replicator.go:155-205 | A run in which an overlapping write is marked completed without being sent |
| `Sessions.Session.TryBeginRun` | internal/agent/session.go:169-178 | Takes the slot exactly when it is free, with a fresh channel |
| `Sessions.Session.EndRun` | internal/agent/session.go:183-195 | Frees the slot and closes its channel once |
| `Sessions.WaitsForTheOwner` | internal/agent/session.go:229-247 | In every reachable state a waiter finds nothing to wait for exactly if nobody owns the slot; otherwise it gets an open channel, the one the owner takes along to close |
| `Sessions.Session.AppendHistory` | internal/agent/session.go:94-120 | The appended history, trimmed |
| `Sessions.HistoryIsWindow` | internal/agent/session.go:94-120 | After any appends of a log with nothing to pin the history is its window: all of it, or the system message and the last 99, or the last 100 |
| `Sessions.WindowIff` | internal/agent/session.go:94-120 | The history is the window of the log for every way to cut it into appends, exactly if the log fits, or starts with a system message, or each system message that a cut could pin equals the message due in front |
| `Sessions.LateSystemMessageSticks` | internal/agent/session.go:94-120 | For every such log and every late system message trimmed away in the end, a cut in two appends that pins it in front of the last 99 |
| `Sessions.RunSlotSafe` | internal/agent/session.go:166-195 | Over every interleaving: one owner, no channel closed twice, every waiter's channel current with a live owner, about to be closed, or closed |
| `Sessions.WaiterCanWake` | internal/agent/session.go:226-247 | A waiter is at most three steps of others and itself from waking |
| `PrefetchCache.Cache.Get` | internal/agent/orchestrator_prefetch.go:64-79 | Drops expired entries, answers and refreshes the key if it is left |
| `PrefetchCache.Cache.Set` | internal/agent/orchestrator_prefetch.go:82-109 | Stores the entry, evicting the scan's choice from a full cache |
| `PrefetchCache.LruScan` | internal/agent/orchestrator_prefetch.go:90-103 | The scan over the map in any order |
| `PrefetchCache.ScanIsLruIff` | internal/agent/orchestrator_prefetch.go:90-103 | The scan evicts a least recently used entry in every map order, except exactly when the empty key's entry is older than all others |
| `PrefetchCache.AgreesWithPlainMap` | internal/agent/orchestrator_prefetch.go:64-109 | In every run the size stays within the bound and a get answers "" or the latest content set for its key |
| `PrefetchCache.LruSurvival` | internal/agent/orchestrator_prefetch.go:64-109 | A key touched and unexpired stays cached while fewer than maxSize other keys were touched after it, if the empty key is never set |
| `PrefetchCache.NoStaleAnswer` | internal/agent/orchestrator_prefetch.go:64-79 | Whatever is answered is the content of the key's latest set, within that set's time to live and at most maxAge after the key's last touch |
| `PrefetchCache.AnswerIff` | internal/agent/orchestrator_prefetch.go:64-109 | By the times of the operations alone: with fewer than maxSize keys touched since the key's last touch, a get gives the latest content exactly if its time to live is not over and the touch is at most maxAge old, and "" otherwise, if the empty key is never set |
| `VaultReconnector.Reconnector.ConnectVaultWithRetry` | internal/agent/mcp_vault.go:125-163 | At most maxAttempts clients are built; the first attempt that works before the context ends or a pause is cut short is the one returned, with its tools, and all others are closed exactly once |
| `VaultReconnector.Reconnector.TryReconnect` | internal/agent/mcp_vault.go:217-254 | Old tools and client gone, new ones in place exactly if the first or the second attempt worked, or none at all; a lost lock race changes nothing |
| `VaultReconnector.Reconnector.Close` | internal/agent/mcp_vault.go:259-270 | Tools unregistered and the client closed |
| `VaultReconnector.Reconnector.EmitWarnOnce` | internal/agent/mcp_vault.go:207-211 | Fires exactly if it has not since the last connection |
| `VaultReconnector.SessionConserves` | internal/agent/mcp_vault.go:168-270 | After any sequence of operations: only the current client is open, all others closed once, the vault tools are exactly the valid names of toolNames calling it, warnings at most connections |
| `VaultReconnector.ConnectIff` | internal/agent/mcp_vault.go:125-163 | There is a connection exactly if some attempt works before the context ends or a pause is cut short |
| `VaultReconnector.WarnsOncePerConnection` | internal/agent/mcp_vault.go:204-254 | In every session a warning fires exactly if none was asked for since the last connection, and connections count exactly the attempts that worked |
| `VaultReconnector.BuiltinsAfterClose` | internal/tools/registry.go:54-98 | However the session went, after a close a builtin is left exactly if no vault of the session ever listed its name |
| `SwarmBridge.BridgeSwarmEvents` | internal/agent/swarm_bridge.go:34-131 | Per agent the flushed text and the buffer are the text received, all flushed at the exit; swarm_start first, messages in order, one swarm_complete last, cancelled exactly if the context ended and with the drops counted then; each threshold once and at most 3 + dropped/500 warnings |
| `SwarmBridge.Bridge.Turn` | internal/agent/swarm_bridge.go:90-131 | One turn of the select loop keeps all of that |
| `SwarmBridge.Bridge.MaybeWarnDrops` | internal/agent/swarm_bridge.go:53-80 | One warning at most, the mark never falls, passed thresholds are never due again |
| `SwarmBridge.Bridge.FlushTokens` | internal/agent/swarm_bridge.go:43-51 | Buffers end empty, in any order of agents, and no agent's text changes |
| `SwarmBridge.Bridge.HandleSwarmEvent` | internal/agent/swarm_bridge.go:135-221 | Field by field: tokens are buffered, a status is told under its label but terminal ones not, completion and error are told with their outcome, tools by name, misfits not at all |
| `CloudSync.FetchPage` | internal/agents/cloud_vault.go:148-164 | At most three fetches, all of one cursor, until a page, the third failure or the end of the context |
| `CloudSync.Pull` | internal/agents/cloud_vault.go:220-247 | Consumes answers up to the first that ends the sync and delivers exactly the entries of the pages among them, with at most three fetches a page |
| `CloudSync.BulkSync` | internal/agents/cloud_vault.go:220-247 | The marker is written only on success |
| `CloudSync.IncrementalSync` | internal/agents/cloud_vault.go:251-284 | The marker is unchanged on error, and a written mark is at least the old one and every delivered CreatedAt, and is one of them or the time |
| `CloudSync.SyncTwice` | internal/agents/cloud_vault.go:220-284 | After two successful syncs everything the first asked for and the server holds by the second was delivered exactly if what arrived in between is newer than the first one's mark, which is at least its clock |
| `CloudSync.DeliversChain` | internal/agents/cloud_vault.go:220-247 | Against a server that answers each cursor with one page, the delivered entries are the cursor chain, each page once despite retries |
| `StreamFilters.FeedCutter` | internal/agent/loop.go:1085-1126 | For every cutting of a stream: cut exactly when its first non-blank character is a brace, cancelled once at most, nothing lost if not cut |
| `StreamFilters.SpeechTurnCutter.OnToken` | internal/agent/loop.go:1097-1114 | One more piece keeps the decision that of the whole stream |
| `StreamFilters.HeldIs` | internal/agent/loop.go:1085-1126 | What a cut turn holds is the stream up to the end of the piece that settled on a brace |
| `StreamFilters.FeedHookOutput` | internal/agent/hooks_config.go:617-649 | For every cutting: exactly the first limit characters, and the flag's exact meaning |
| `StreamFilters.LimitedHookOutput.Write` | internal/agent/hooks_config.go:629-642 | One write; all of it is reported as written |
| `StreamFilters.LimitedHookOutput.String` | internal/agent/hooks_config.go:644-649 | The whole stream if the flag is unset, else the capped stream with the notice |
| `StreamFilters.FullThenEmptyIsMarked` | internal/agent/hooks_config.go:629-642 | The flag also rises when nothing was lost |
| `StreamFilters.DecimalValue` | internal/agent/hooks_config.go:644-649 | Reading back a number as it is printed in the notice gives the number |
| `UserHooks.MergeUserHooks` | internal/agent/hooks_config.go:179-198 | Of each id the last definition, at the place of the first |
| `UserHooks.LastDefinitionIs` | internal/agent/hooks_config.go:179-198 | Of an id the definition that no later one has |
| `UserHooks.FirstSeenInOrder` | internal/agent/hooks_config.go:179-198 | Ids stand in the order of their first definitions, all of them |
| `UserHooks.ListedInOrder` | internal/agent/hooks_config.go:364-377 | The hooks of the readable, non-blank paths, path after path |
| `UserHooks.BelowIff` | internal/agent/hooks_config.go:378-385 | The order of ids: a proper beginning first, or the smaller character where two ids part |
| `UserHooks.UserHookRunner.Load` | internal/agent/hooks_config.go:345-397 | In force are exactly the last definitions that are enabled, in id order; a failed load reports the first broken file and keeps hooks and paths |
| `UserHooks.UserHookRunner.MaybeAutoReload` | internal/agent/hooks_config.go:415-446 | Reloads exactly when some path's modification time, or its being there, differs from what is remembered, so not again until something changes |
| `UserHooks.InForceIsUnique` | internal/agent/hooks_config.go:378-385 | The hooks in force are determined by the files |
| `UserHooks.HookAuditLog.Append` | internal/agent/hooks_config.go:253-263 | The ring holds the last entries of the whole log |
| `UserHooks.HookAuditLog.Recent` | internal/agent/hooks_config.go:267-282 | The newest entries of the whole log, newest first |

## Left out

- `AgentLoop.RunLoop`: text streamed through OnToken and the token gate, token counts, turn metrics and the memory gate after a successful run are not modelled.
- `Dispatch.DispatchTools`: a tool looks at the files it sees in one step and changes those it may touch in one step, after the kind of its name: writers and `read_file` one file, web tools none, searches and git queries all, anything else everything; state other than files, panic recovery, credential redaction, the permission gate, hooks, timeouts and the cut of long outputs are inside the answers a call may give.
- `ReplicationProtocol.NothingLost`: a dequeue as delivered is all that can be promised for every vault; what it is worth is stated by `DropIff`, `RunSafeIff` and `HonestVaultsKeepAll`.
- `ReplicationProtocol.HonestVaultsKeepAll`: no vault takes a memory back, and tags other than the concept key are not modelled.
- `ReplicationQueue.MemoryReplicator.DrainBatch`: a context that stays alive and payloads that parse; the pool of clients is only an answer that may refuse.
- `CloudProtocol.CrashSafe`: the cloud keeps what it acknowledges, and nothing else writes there; a push that failed may have been taken all the same. No fairness: at most ten rows are fetched, oldest first, so ten older rows whose updates keep failing hold up the rest.
- `CloudSync.Pull`: pauses between tries have no length; a context may end in any of them.
- `CloudSync.SyncTwice`: each successful sync sees one state of the server, pages being consistent with each other; the server's test for newer entries is arbitrary.
- `PrefetchCache.LruSurvival`: the cache is sequential; the code calls `get`, which deletes and writes, under a read lock.
- `UserHooks.UserHookRunner.Load`: validation inside one file is an answer of the file system; running hooks is left out.
- `Sessions.RunSlotSafe`: each owner ends its run once; `incRunning` and `decRunning` are other users of the counter and are left out.
- Background compaction, `replaceHistory` and history hydration, which may replace history over a concurrent append.
- Which memories are replicated (`ShouldReplicate`), the extraction of concept and content, and replica tags.
- `pullCadence` and `rememberPull`, the health and negative caches, the channel snapshot of a swarm.
- The regex classifiers and speech rewriting around the loop: arbitrary functions here.
- Writing order and aliasing of messages between loop and backend: messages are values.
- HTTP, MCP, JSON, SQLite, Pebble, git, CLI, TUI, server wiring and prompt assembly.
