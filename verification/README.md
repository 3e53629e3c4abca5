# Mango, verified models

Mango is a durable agent runtime. This project models its hard logic in Dafny and proves what
that logic promises. One module models one component:

| module | component |
|---|---|
| `Conversation`, `History`, `ProjectedContent` | the model conversation, its projection from the durable event log, and what that says |
| `AgentLoop`, `AgentRuns`, `AgentPolicies` | the bounded model/tool loop, what every run of it keeps, and who may run what |
| `Compaction`, `CompactedContent` | request-time compaction, and what a compacted transcript says |
| `SkillContext`, `SkillRules` | loaded Skills across compaction, and which are carried |
| `LiveTail` | the live event stream: an append-only log read by cursor, lossy wakeups and previews |
| `BlobIntents`, `OutputPublishing` | database rows and blobs kept in agreement across crashes; session outputs |
| `ScheduledRuns`, `ScheduledFailures` | scheduled Deployment runs by concurrent, retried workers, and what runs and owners do to a deployment |
| `MemoryListing` | directory roll-up and keyset paging |
| `StreamAssembler` | the incremental decoder of a streamed response |
| `VaultCredentials`, `VaultChanges` | the binding of sealed payloads, and what becomes of a credential field by field |
| `MountPaths`, `MountRules` | canonical mount paths, conflicts, the mounted tree, and which paths are accepted |
| `Accounting` | session time, list prices, budgets |
| `Text` | byte strings, UTF-8, decimal numbers |

`dafny verify dfyconfig.toml` checks everything.

## How the models are built

Each component has a specification that its methods are proved to follow, and laws about that
specification. The laws that say what a result is are written out on their own, with the source's
texts, limits and conditions, and do not mention the functions they are about: modules such as
`ProjectedContent`, `CompactedContent`, `AgentPolicies` and `VaultChanges` hold nothing else.

Loops and in-place updates of the source are methods, proved equal to a specification on values;
the properties are lemmas about that specification. Compaction works on arrays of blocks through
references, as the source does, and is proved to leave the caller's transcript alone. The live
tail, the vault and the session clock are classes with the source's fields.

Environments are adversarial. The live tail and the agent loop run against a script that decides,
interaction by interaction, what is committed, which reads fail, whether a buffer has room and what
the model answers. Blob intents and scheduled runs are systems of processes that take one repository
transaction or object-store call at a time, in any interleaving, with failures, lost
acknowledgements and crashes anywhere; the services' own code is proved to take exactly the steps of
its process, with other processes moving between any two of them. Repository contracts are those of
the queries in `internal/pg`.

Strings are byte strings, one character for a byte, and white space is ASCII. JSON values are
carried as their encoding. Times are integers: microseconds for the session clock, nanoseconds for
schedules, an instant with an offset for credentials. Seconds and dollars are not rounded where the
source computes in floating point.

## What turned out to differ from the source's own words

- Previews are prepared once for each event id (`internal/live/nats.go:325-333`), so "the log is caught up
  before a request's first preview" holds exactly when no event id is previewed under two requests
  (`LiveTail.StartsFirstExactly`, with a run for any two of them in `LiveTail.SharedIdSkipsStart`).
- The shrinking pass also replaces a small tool result whose own text contains the compaction mark, if
  some other result is big and the pass is still over the limit when it gets there
  (`Compaction.ShrunkSmall`, `Compaction.SmallResultLost`), and an excerpt makes a result of 1024 to 3000 bytes longer
  (`Compaction.ExcerptShortens`).
- Resuming a confirmation equals replaying the log only for text results with nothing projected after the
  parked call (`History.ResumeEqualsReplay`); a log can be projected piecewise only where no tool call
  crosses (`History.SplitProjection`).
- A credential's metadata comparison reads a missing key as the empty string, so replacing one entry by
  an empty one under another key is dropped (`VaultCredentials.ComparisonMisses`,
  `VaultCredentials.UpdateReport`, `VaultCredentials.RenamingDropped`).
  Sealing rests on stored times being in UTC (`VaultCredentials.ZoneMatters`).
- A worker that creates a scheduled run itself returns its creation time as its clock read it, finer than the
  stored microsecond, and only then is its answer not the record (`ScheduledRuns.ReturnsRecordedRun`, with a run in
  `ScheduledRuns.CreatorReturnsFiner`). A schedule advance may leave `updated_at` alone, so an owner's
  concurrent update can put the old occurrence back (`ScheduledRuns.AdvancePutBack`), the one thing such an
  update can overwrite unread (`ScheduledRuns.UpdateSeesAll`). The occurrence then runs again to the run
  recorded for it (`ScheduledRuns.OneRunPerOccurrence`, `ScheduledRuns.ReturnsRecordedRun`).
- Paged memory listing needs heads in byte order; under another collation items are lost
  (`MemoryListing.EveryPageSize`, `MemoryListing.CollationLoses`, and `MemoryListing.WrongWayRound` for two such paths).
- Cost is additive over `Add` only at one speed, because `Add` keeps the accumulator's
  (`Accounting.ListCostAdds`). The budget parser admits a signed amount (`Accounting.BudgetCanonical`,
  `Accounting.SignedBudgetAdmitted`).
- A reconciliation must not start over an upload in flight, whatever the state (`BlobIntents.OverlapLosesBlob`).
- A projected log need not be a legal request: a result recorded after the agent has spoken again is not where
  the API expects it (`History.LegalProjection`, `History.LateResultIllegal`).

## Model

| member | source | states |
|---|---|---|
| `Conversation.AppendMerging` | internal/agentruntime/agentcore.go:566-590 | the loop merges added messages as `Merged` says: same-role neighbours are folded, and an anchor is replaced only by an added one |
| `Conversation.MergedFlattens` | internal/agentruntime/agentcore.go:557-590 | merging never loses, reorders or re-roles a block: the entries of the result are those of the base followed by those added |
| `Conversation.MergedAlternates` | internal/agentruntime/agentcore.go:557-590 | merging onto an alternating base alternates, whatever is added, and ends with the role added last |
| `Conversation.MergedConversations` | internal/agentruntime/agentcore.go:557-590 | on conversations AppendMerging is exactly concatenation of entries |
| `Conversation.ConversationUnique` | internal/domain/message.go:108-229 | a list of role-tagged blocks has at most one rendering as non-empty, strictly alternating messages |
| `Conversation.LegalExactly` | internal/domain/message.go:95-107 | a conversation is legal if and only if every call made so far has been answered whenever the user has spoken |
| `History.ProjectMessages` | internal/domain/message.go:108-229 | both passes over any event log give the non-empty, strictly alternating messages of its kept blocks; which those are is `ProjectedContent.ProjectionSays` |
| `History.AppendEvent` | internal/domain/message.go:150-227 | one event of the second pass: its role and its blocks, with unmatched tool uses and results dropped |
| `History.CollectToolIds` | internal/domain/message.go:109-148 | the first pass collects exactly the ids some result refers to and the ids some tool use committed |
| `History.ToolIdsPair` | internal/domain/message.go:95-229 | in every projection the tool ids called and the tool ids answered are the same set, namely those both used and answered in the log |
| `History.LegalProjection` | internal/domain/message.go:95-229 | a log projects to a legal conversation if and only if no agent event carries a raw tool result and, whenever the user has spoken, every kept use so far has its kept result |
| `History.LateResultIllegal` | internal/domain/message.go:108-229 | a log that records a call, then words of the user and of the agent, and only then the result of the call, projects to a conversation that is not legal, whatever is said |
| `History.SplitProjection` | internal/domain/message.go:108-229 | projecting the halves of a log and joining them with AppendMerging equals projecting the whole if and only if no tool call crosses the split |
| `History.KeptGrows` | internal/domain/message.go:161-227 | knowing more answered and committed ids only adds blocks, and says exactly when it adds none |
| `History.ReplayEntries` | internal/domain/message.go:108-229 | recording the result of a dangling use makes the use reappear in its place and appends the result block, and changes nothing else |
| `History.ResumeEqualsReplay` | internal/agentruntime/agentcore.go:373-497 | threading a resolved confirmation into the projected history equals projecting the history with the emitted result if and only if the result is text only and nothing after the parked call projects to a block |
| `ProjectedContent.ProjectionSays` | internal/domain/message.go:108-509 | read off the events alone: a projection is, event by event and in log order, under the event's role, of a message one block for each item that speaks (a text with something in it, its own encoding for another typed object, the rendering of a File document exactly when its snapshot names that File), of a cross-Thread message the same between its envelope's markers, a tool use when the log has its result, and a result, with its text and rich content, when the log has its use |
| `AgentLoop.Run` | internal/agentruntime/agentcore.go:74-329 | the whole run, for every script of answers and failures, takes exactly the steps of the protocol machine and ends with its outcome; what those runs do is stated over logs in `AgentRuns` and `AgentPolicies` |
| `AgentLoop.RunTurn` | internal/agentruntime/agentcore.go:116-328 | one turn: context check, model call, publication, tools, and the messages carried to the next turn |
| `AgentLoop.HandleUses` | internal/agentruntime/agentcore.go:213-307 | the tool uses of a reply are handled in order, with the blocks, results and parked ids they give |
| `AgentLoop.RunInline` | internal/agentruntime/agentcore.go:219-272 | an always_allow built-in is prepared, announced, executed and published, or the run stops with an error |
| `AgentLoop.CallAndPublish` | internal/agentruntime/agentcore.go:129-200 | the model is called with the running conversation; a thinking marker and the text are published |
| `AgentLoop.SeedConfirmation` | internal/agentruntime/agentcore.go:373-497 | a confirmation is resolved into the pair that is merged into the conversation, or the run stops with an error |
| `AgentLoop.PrepareBuiltin` | internal/agentruntime/agentcore.go:499-517 | context check, sandbox and journal check, journal preparation under the current ordinal |
| `AgentLoop.ExecutePreparedBuiltin` | internal/agentruntime/agentcore.go:519-555 | context check, journal start, execution, completion with the materialized result |
| `AgentLoop.TextBlocksToContent` | internal/agentruntime/agentcore.go:670-681 | the non-empty texts of a reply in order |
| `AgentLoop.FlattenResultText` | internal/agentruntime/agentcore.go:695-712 | the concatenated text of a result, the same text the projection gives it |
| `AgentRuns.RequestsAreLegal` | internal/agentruntime/agentcore.go:87-328 | in every run every request alternates roles, answers exactly the calls of the assistant message before it and ends with a user message, if the starting conversation did or a confirmation is threaded into one with no other open call |
| `AgentRuns.RequestsAlternate` | internal/agentruntime/agentcore.go:87-328 | in every run every request alternates roles and ends with a user message, if the starting conversation does or a confirmation is resolved over an alternating one, whether or not tools are paired |
| `AgentRuns.ProjectedRequestsAreLegal` | internal/agentruntime/agentcore.go:87-328 | a run over a projected log has only legal requests when the turns of the log settle and it starts from the user's turn or resumes the only open call |
| `AgentRuns.ResumedLegal` | internal/agentruntime/agentcore.go:93-114 | threading the confirmation pair in is legal if and only if the last assistant message left no other call unanswered |
| `AgentRuns.ToolStepsInOrder` | internal/agentruntime/agentcore.go:219-272 | each tool goes check, prepare, announce, check, start, execute, complete, publish, contiguously, under the step id the journal answered and with the output the sandbox answered; only the end of the run cuts it short; a resumed call is not announced again and a denied one only publishes its denial |
| `AgentRuns.OrdinalsCount` | internal/agentruntime/agentcore.go:219-230 | the journal sees step ordinals 0, 1, 2, ... over the whole run, including a resumed call |
| `AgentRuns.AtMostTwentyCalls` | internal/agentruntime/agentcore.go:116-328 | a run calls the model at most twenty times |
| `AgentRuns.SilentRuns` | internal/agentruntime/agentcore.go:74-114 | a run asks nothing of its environment if and only if its trigger drives no turn, its tools are unsupported, or its confirmation does not resolve a parked ask |
| `AgentRuns.ConfirmationRunsOnlyAllowed` | internal/agentruntime/agentcore.go:373-497 | a denied or invalid confirmation executes nothing, and an allowed one executes exactly the parked call, as step 0, before the model is asked to go on |
| `AgentRuns.RunsContinue` | internal/agentruntime/agentcore.go:202-328 | each model call continues the conversation by exactly the calls made and results published for the previous reply, all of which was published and handled once in order; a run that ends without an error has served its last reply and returns exactly the ids that reply parked |
| `AgentRuns.FailsExactly` | internal/agentruntime/agentcore.go:74-328 | a run fails if and only if something it asked for was refused, or a tool found no sandbox or no journal; nothing is asked after a refusal |
| `AgentRuns.CutAfterTwenty` | internal/agentruntime/agentcore.go:116-328 | a run makes at most twenty model calls, and one that finishes right after its tools ran, not parked and not failed, has made exactly twenty |
| `AgentRuns.IdsAreFresh` | internal/agentruntime/agentcore.go:116-272 | the ids of previewable messages and of the calls of replies come, in log order, from further and further on in the supply, so none is drawn twice |
| `AgentPolicies.PoliciesObeyed` | internal/agentruntime/agentcore.go:213-307 | in every run a tool is prepared, announced as allowed and executed only if it is registered and enabled under always_allow, or, before the first model call, is the very call the user has just allowed; a use asks only if it is registered and enabled under another policy; exactly the rest is left to the caller; a denial is answered with the denial text |
| `AgentPolicies.DisposedExactly` | internal/agentruntime/agentcore.go:213-225 | what happens to a use is decided by the effective setting: the last configuration naming the tool that sets the field, else the default, and nothing without built-ins |
| `AgentPolicies.SilentExactly` | internal/agentruntime/agentcore.go:74-114 | a run asks nothing if and only if its trigger drives no turn, a web tool is enabled under a policy other than always_allow, or its confirmation does not answer, well formed, the recovered ask of a registered built-in still under always_ask |
| `AgentPolicies.UsesPicked` | internal/agentruntime/agentcore.go:202-212 | the uses handled are the tool_use blocks of the reply, in order |
| `AgentPolicies.TextsPicked` | internal/agentruntime/agentcore.go:670-681 | the texts published are the non-empty texts of the reply, in order |
| `Compaction.EstimateMessagesTokens` | internal/domain/context.go:45-74 | the nested loops compute the token estimate, which measures the bytes sent (`Compaction.TokensMeasure`) |
| `Compaction.TokensMeasure` | internal/domain/context.go:45-92 | for every transcript three times the estimate is at least its framing (12 bytes a message, 9 a block) and the bytes of every part that is sent (raw encoding, or text; name and id, and input; result id and text, and each rich item), and at most two bytes more for each part |
| `CompactedContent.CompactionSays` | internal/domain/context.go:91-230 | what CompactMessages returns, without reference to how: within the limit the transcript untouched; otherwise the newest messages that fit nine tenths of it, one more to keep a tool pair, behind the summary in the user's first message, and every block itself, an excerpt of a result of 1024 bytes or more, or a stub; no such result keeps its text while the limit is passed |
| `CompactedContent.ExcerptExactly` | internal/domain/context.go:232-269 | an excerpt is the text and the note, or its longest whole-character beginning and end, three quarters and one quarter of what the note leaves of 3000 bytes, around the note |
| `CompactedContent.SummaryIs` | internal/domain/context.go:351-400 | the summary is the header and one line for each dropped block, in order, as many as fit the budget, then the notice if not all did; each line has its role, its kind's wording, and its text with white space collapsed and cut to 360 or 240 bytes off the middle of no character |
| `CompactedContent.DecimalReads` | internal/domain/context.go:232-236 | a size is written in decimal without leading zeros |
| `Compaction.CloneMessages` | internal/domain/context.go:271-305 | an equal transcript on fresh block lists, sharing none |
| `Compaction.CompactOversizedToolResults` | internal/domain/context.go:180-230 | blocks are rewritten in place, in order, only until the transcript fits: excerpts first, then placeholders; reports whether any large result was met |
| `Compaction.RewritePass` | internal/domain/context.go:186-229 | one loop nest: the transcript becomes its rewriting up to the first position at which it fits, or the whole rewriting |
| `Compaction.LongestSuffix` | internal/domain/context.go:115-132 | the cut starts the longest suffix that fits nine tenths of the limit, or is the newest message alone |
| `Compaction.LongestSuffixUnique` | internal/domain/context.go:115-132 | that cut is determined by the transcript |
| `Compaction.FindCut` | internal/domain/context.go:119-139 | the cut is moved back one message only to keep a tool pair |
| `Compaction.CompactMessages` | internal/domain/context.go:95-173 | the projection is one `CompactedTo` allows, on fresh block lists, and the source transcript is unchanged |
| `Compaction.CompactedLegal` | internal/domain/context.go:91-173 | compaction preserves legality, starts with a user message whenever it drops anything, and keeps every survivor's role, type, id and error flag |
| `Compaction.SummaryWithinBudget` | internal/domain/context.go:115-172 | when the newest message fits and the cut was not moved back, summary and suffix take at most floor(9L/10) + 7 + (B+28)/3 tokens |
| `Compaction.WithSummaryTokens` | internal/domain/context.go:160-166 | exactly what the summary costs on top of the suffix |
| `Compaction.SummaryFrom` | internal/domain/context.go:351-369 | the summary extends its header and exceeds its byte budget by at most the truncation notice |
| `Compaction.CompactedSummary` | internal/domain/context.go:351-369 | the loops produce the summary of the dropped messages |
| `Compaction.ShrunkReaches` | internal/domain/context.go:180-230 | the pass ends within the limit, or with every result of 1024 or more original bytes reduced to its placeholder |
| `Compaction.ShrunkSpares` | internal/domain/context.go:180-230 | a block that is neither big nor marked survives untouched |
| `Compaction.ShrunkSmall` | internal/domain/context.go:180-230 | exactly what becomes of a result under 1024 bytes: it is replaced if and only if another result is big, excerpts cannot bring the transcript within the limit, the second loop is still over it when it gets there, and its own text contains the mark (and is not its placeholder already) |
| `Compaction.SmallResultLost` | internal/domain/context.go:91-230 | for every limit CompactMessages replaces, in one legal exchange with enough parallel calls, every answer of 21 bytes that reads like the mark |
| `Compaction.ExcerptShortens` | internal/domain/context.go:232-248 | an excerpt of a text-only result is shorter than the text if and only if the text is longer than 3000 bytes |
| `Compaction.ExcerptValid` | internal/domain/context.go:232-269 | excerpting valid UTF-8 never splits a character |
| `Text.LongestValid` | internal/domain/context.go:250-258 | the longest valid UTF-8 prefix within the limit |
| `Text.FirstValid` | internal/domain/context.go:260-269 | a valid UTF-8 suffix within the limit |
| `Text.ValidExactly` | internal/domain/context.go:250-269 | a byte string counts as valid if and only if it is the UTF-8 encoding of some sequence of Unicode scalar values |
| `SkillContext.LatestWellListed` | internal/agentruntime/skills.go:224-244 | the latest injections have distinct names, increasing positions and complete bodies |
| `SkillContext.LatestInjections` | internal/agentruntime/skills.go:224-244 | the loop fills a map block by block and sorts its entries by position: the latest injection of each Skill in original order |
| `SkillContext.ReattachmentBudget` | internal/agentruntime/skills.go:151-165 | the reserve is min(25000, sum of min(5000, tokens)) |
| `SkillContext.ChosenCost` | internal/agentruntime/skills.go:173-199 | what newest-first reattachment adds exceeds the reserve by at most 41 tokens in all |
| `SkillContext.CutCost` | internal/agentruntime/skills.go:186-197 | a single reattachment exceeds what is deducted for it by at most 41 tokens, and only when it uses up the budget |
| `SkillContext.ChosenInOrder` | internal/agentruntime/skills.go:181-204 | each Skill is reattached at most once, in original order, and never one already present |
| `SkillContext.LoadedIfComplete` | internal/agentruntime/skills.go:103-140 | a reattached Skill counts as loaded if and only if its body is complete |
| `SkillContext.TruncatedCost` | internal/agentruntime/skills.go:246-261 | a truncated body costs at most the limit, or 42 tokens when the limit is below that, and ends with the truncation marker |
| `SkillContext.Select` | internal/agentruntime/skills.go:184-196 | the selection loop picks the choice, newest first |
| `SkillContext.SortByOrder` | internal/agentruntime/skills.go:200-202 | sorting by position permutes and orders |
| `SkillContext.ReattachInjections` | internal/agentruntime/skills.go:173-222 | in place: the chosen blocks join the last user turn, behind its results or in front of its words; any other projection is left alone and one with a new turn returned |
| `SkillContext.AttachedLegal` | internal/agentruntime/skills.go:209-221 | reattaching keeps a conversation legal if and only if it does not put a user turn without results after unanswered calls |
| `SkillContext.CompactThenReattach` | internal/agentruntime/skills.go:167-222 | a legal transcript that ends with a user turn is still one after compaction and reattachment together |
| `SkillRules.InjectionExactly` | internal/agentruntime/skills.go:103-140 | a block counts as a Skill's complete body if and only if it is text that opens with the base line of a directory below the Skills root, directly or in an agent's bundle of 24 hexadecimal digits, names the Skill, and does not end with the truncation note |
| `SkillRules.LatestExactly` | internal/agentruntime/skills.go:224-244 | the injections found are exactly the last complete body of each Skill, where it stands |
| `SkillRules.ChosenSays` | internal/agentruntime/skills.go:181-204 | a latest body is carried if and only if its Skill is not present and the newer ones carried cost less than the budget; then it is kept to what they leave of it and to 5000 tokens |
| `SkillRules.ReattachedSays` | internal/agentruntime/skills.go:173-222 | of the whole conversation and a projection of it: each Skill's latest complete body is carried unless the projection has one, within 25000 tokens shared newest first |
| `SkillRules.LoadedExactly` | internal/agentruntime/skills.go:87-101 | a Skill counts as loaded if and only if its complete body is somewhere in the conversation |
| `SkillRules.OnlyBodiesCarried` | internal/agentruntime/skills.go:173-222 | nothing but latest bodies is carried |
| `SkillRules.TruncatedSays` | internal/agentruntime/skills.go:246-261 | a body within its limit is kept whole; a longer one is cut at the last character boundary that leaves room for the note, which follows |
| `SkillRules.ReserveSays` | internal/agentruntime/skills.go:151-165 | the reserve adds up what each body costs at three bytes to a token, 5000 at most |
| `SkillRules.AttachedSays` | internal/agentruntime/skills.go:206-221 | where reattached blocks go: behind the results the last user message carries, before anything else it says, or after everything |
| `LiveTail.Tail.constructor` | internal/live/nats.go:147-217 | subscribing reads the cursor before the tail starts |
| `LiveTail.Tail.Reconcile` | internal/live/nats.go:243-304 | the reconcile closure as the machine: pages, fences, offers, the existence check and the synthetic last frame |
| `LiveTail.Tail.DeliverPage` | internal/live/nats.go:257-278 | one page: cursor and fences move before each frame is offered |
| `LiveTail.Tail.ForwardPreview` | internal/live/nats.go:314-366 | one preview: opt-in, catch-up before the first of an event, the three fences, the offer |
| `LiveTail.Tail.Loop` | internal/live/nats.go:306-374 | the select loop runs the machine for every script of wakeups, ticks, previews and failures; what a wake and a preview bring is `LiveTail.WakesDeliver` and `LiveTail.PreviewsHandled` |
| `LiveTail.RunDeliversLog` | internal/live/nats.go:219-375 | in every run the persisted frames delivered are a gap-free, repeat-free, in-order prefix of the log past the subscription cursor, previews are timely, and session.deleted is last |
| `LiveTail.ReconciledKeeps` | internal/live/nats.go:243-304 | a reconciliation keeps the tail in step, and when it succeeds everything committed before its last read has been delivered, over any number of 1000-event pages |
| `LiveTail.WakesDeliver` | internal/live/nats.go:306-313 | in every run, a tail still going after a wakeup or a tick has delivered every event committed when it came |
| `LiveTail.WakeGoesThrough` | internal/live/nats.go:243-313 | when reads succeed and the buffer has room, nothing stops a tail but the end of its subscription, or of the session, whose session.deleted it has then delivered |
| `LiveTail.PreviewsHandled` | internal/live/nats.go:314-366 | in every run a preview that leaves the tail going has been delivered if it was opted into and timely, and skipped otherwise |
| `LiveTail.NoLegacyPreview` | internal/live/nats.go:335-351 | no preview that names no request is delivered between the end of a request and the next start |
| `LiveTail.SubscribesAtEnd` | internal/live/nats.go:156-165 | the subscription cursor is past every event of the thread committed before it, and no further |
| `LiveTail.NoStalePreview` | internal/live/nats.go:335-351 | no preview follows the message it previews nor the end of its request, none is of a kind not opted into, and nothing follows session.deleted |
| `LiveTail.StartBeforePreview` | internal/live/nats.go:325-334 | one preview at a time: with an event id previewed under one request, every log event up to the start is delivered before the preview |
| `LiveTail.SharedIdSkipsStart` | internal/live/nats.go:325-334 | for any event id and any two requests it is previewed under there is a run, with every start committed before its previews, that delivers the second request's preview without its start |
| `LiveTail.StartsFirstExactly` | internal/live/nats.go:325-334 | for any set of (event id, request) pairs publishers use: starts come before previews in every run if and only if no event id is used with two requests |
| `LiveTail.AfterAdvance` | internal/live/nats.go:244-258 | advancing the cursor over the next event leaves exactly the rest past it |
| `BlobIntents.Upload` | internal/app/file_service.go:131-164 | the upload steps are steps of the system, whatever happens between them; a returned file is ready with its blob and recorded info; when every call goes through and nothing interferes the file is returned, and nothing else has changed |
| `BlobIntents.Delete` | internal/app/file_service.go:346-358 | the delete steps are steps of the system; success means the row is gone; when every call goes through and nothing interferes exactly this row and blob are gone |
| `BlobIntents.Reconcile` | internal/app/file_service.go:362-376 | run alone and without an error it leaves only ready rows, and every ready row; when every call goes through it succeeds and removes exactly what is incomplete |
| `BlobIntents.CleanupIncomplete` | internal/app/file_service.go:378-383 | best-effort cleanup keeps the invariant and hides nothing that is ready |
| `BlobIntents.CleanupFiles` | internal/app/session_output_publisher.go:310-320 | on success every listed row is gone; on the first error it stops |
| `BlobIntents.PublishOne` | internal/app/session_output_publisher.go:236-298 | publishing one output keeps the invariant and, without interference, shows exactly its content under its path; when every call goes through, the id is fresh and there is room, it succeeds |
| `BlobIntents.CompleteSessionOutput` | internal/pg/files.go:304-447 | the replacing transaction: a success shows the content, and the caller is told to clean up its own row if it is a duplicate |
| `BlobIntents.ReadyIsBacked` | internal/app/file_service.go:62-74 | in every interleaving with failures, lost acknowledgements, late deletes and crashes, where no reconciliation starts over an upload in flight, every ready row has its blob with the recorded size and checksum |
| `BlobIntents.NeverReadyStays` | internal/pg/files.go:108-133 | a row whose blob may be removed can never become ready again |
| `BlobIntents.ReconciledDoomed` | internal/app/file_service.go:360-376 | what a reconciliation lists is driven by nobody, by its hypothesis |
| `BlobIntents.OverlapLosesBlob` | internal/app/file_service.go:360-376 | the hypothesis is needed in every state: once a reconciliation lists an upload that is about to complete and could be shown, the run can go on to a ready row without its blob |
| `BlobIntents.InFlight` | internal/app/file_service.go:131-164 | a run reaches such a state |
| `BlobIntents.OutputsStayUnique` | internal/pg/files.go:304-447 | a session never shows two files for one output path, nor more than 500 outputs |
| `BlobIntents.CleanupHides` | internal/pg/files.go:532-593 | the cleanup of a session being deleted hides every output of it and nothing else, and sets out to remove all of them |
| `BlobIntents.SnapshotHides` | internal/pg/files.go:453-530 | a snapshot is only taken of a session that is not being deleted; it hides the outputs whose path is not listed and nothing else, and sets out to remove all that are hidden |
| `BlobIntents.StaysHidden` | internal/pg/files.go:532-593 | once they are hidden, no output of a session being deleted is ever shown again, whatever uploads were under way |
| `OutputPublishing.InspectArchive` | internal/app/session_output_publisher.go:111-151 | the first reading accepts an archive if and only if nothing is refused, every file reads to its declared size, no path repeats and there are at most 500 files; it returns their contents |
| `OutputPublishing.PlannedExactly` | internal/app/session_output_publisher.go:111-151 | the plan of an archive is its regular files, each with its content |
| `OutputPublishing.PublishArchive` | internal/app/session_output_publisher.go:153-204 | the second reading must be the first again; what is up to date is skipped and everything else published |
| `OutputPublishing.UpToDateExactly` | internal/app/session_output_publisher.go:50-103 | what is skipped is exactly what is shown already with its planned content |
| `OutputPublishing.Publish` | internal/app/session_output_publisher.go:50-103 | without interference a successful publication shows exactly the archive's files with their contents, and leaves other sessions' files alone |
| `ScheduledRuns.RunScheduled` | internal/app/deployment_service.go:349-377 | one worker's attempt, interleaved with any others, returns the recorded run of its occurrence, after its recovery has committed, if its failure is neither a rate limit nor an unknown error, and the schedule was advanced; when nobody interferes, an attempt whose calls go through returns the run already recorded or one with a new Session, and one whose creation fails returns that failure |
| `ScheduledRuns.RunDeployment` | internal/app/deployment_service.go:379-435 | load, create session and run together, re-check, record the failure, check again |
| `ScheduledRuns.RecordFailure` | internal/app/deployment_service.go:420-434 | a failure is recorded once; a concurrent record wins |
| `ScheduledRuns.RecoverScheduledFailure` | internal/app/deployment_service.go:508-518 | the pause is repeated until it commits |
| `ScheduledRuns.CompleteSchedule` | internal/app/deployment_service.go:462-480 | success means the schedule transaction committed |
| `ScheduledRuns.OneRunPerOccurrence` | internal/pg/deployment.go:223-250 | in every interleaving an occurrence has at most one recorded run |
| `ScheduledRuns.OneSessionPerOccurrence` | internal/pg/store.go:378-400 | in every interleaving an occurrence has at most one Session |
| `ScheduledRuns.ReturnsRecordedRun` | internal/app/deployment_service.go:349-377 | a worker returns the recorded run; its answer differs from the record if and only if it got the run from its own acknowledged creation and its load had read the clock finer than a microsecond |
| `ScheduledRuns.CreatorReturnsFiner` | internal/app/deployment_service.go:395-414 | runs get there: for any occurrence and clock reading, a run in which a worker creates the Session and the run itself and returns that run, which is not the recorded one if and only if the reading was finer than a microsecond |
| `ScheduledRuns.WorkersAgree` | internal/app/deployment_service.go:349-377 | all workers of an occurrence return the same run |
| `ScheduledRuns.PauseBeforeAdvance` | internal/app/deployment_service.go:356-376 | for every error type but "", session_rate_limited_error and unknown_error: wherever the schedule was advanced for a run with it, its recovery had committed before |
| `ScheduledFailures.NeverPausedFor` | internal/app/deployment_service.go:745-748 | in every interleaving no recovery is ever committed for a run that did not fail, or failed with session_rate_limited_error or unknown_error |
| `ScheduledFailures.RunsChangeDeployment` | internal/app/deployment_service.go:462-518 | in every interleaving a step of a run, scheduled or manual, changes a deployment in one of two ways only: it pauses it for a recorded failure of another type than those, or moves its schedule past a recorded occurrence it was due for |
| `ScheduledFailures.RecoveriesTakeEffect` | internal/app/deployment_service.go:482-518 | a recovery that enters the history has paused the deployment of its run for its error, unless it is archived or its owner paused it |
| `ScheduledFailures.OwnersChangeDeployment` | internal/app/deployment_service.go:288-340 | in every interleaving an owner's pause, unpause or archival changes that deployment as asked, stamped past its last change, and nothing else |
| `ScheduledFailures.UpdatesChangeDeployment` | internal/app/deployment_service.go:207-286 | an owner's update is written if and only if what it read was not archived, has not been changed since, and the patch changes it; it then leaves what was read as the patch asks |
| `ScheduledRuns.LoadStep` | internal/app/deployment_service.go:379-401 | a run is drafted, under its own id and clock reading, if and only if its deployment is there, active and not archived |
| `ScheduledRuns.WorkersCanReturn` | internal/app/deployment_service.go:349-377 | runs get there: for any occurrence, error type but those three and two workers, a run in which the failure is recorded, the deployment paused, the schedule advanced, and both workers return the recorded run |
| `ScheduledRuns.DeploymentsMoveForward` | internal/app/deployment_service.go:520-527 | in every interleaving of owners (updates included) and workers updated_at never moves back, an archived deployment never changes again, and only schedule bookkeeping changes without moving it forward |
| `ScheduledRuns.UpdateSeesAll` | internal/app/deployment_service.go:207-286 | an owner's update that passes its concurrency check overwrites nothing it has not read but the bookkeeping of a schedule advance, and that if and only if there was one |
| `ScheduledRuns.WorkersSpareDeployment` | internal/app/deployment_service.go:482-506 | no run, scheduled or manual, ever changes an archived deployment or one its owner paused |
| `ScheduledRuns.RecoverySpares` | internal/app/deployment_service.go:482-506 | recovery spares archived and manually paused deployments, pauses every other for the error, and is idempotent |
| `ScheduledRuns.UpdatesMoveForward` | internal/app/deployment_service.go:520-527 | a pause, unpause, archival or recovery that changes anything moves updated_at strictly forward |
| `ScheduledRuns.AdvanceUnseen` | internal/pg/deployment.go:426-492 | exactly when a schedule advance leaves updated_at alone, so that a concurrent owner update cannot see it |
| `ScheduledRuns.AdvancePutBack` | internal/app/deployment_service.go:279-285 | an owner's update that read before a schedule advance puts the old occurrence back if and only if the run is not newer than the last update; otherwise it is refused |
| `VaultCredentials.ApplyCredentialAuthUpdate` | internal/app/vault_service.go:586-697 | fails if and only if the patch is invalid, applies it exactly, and reports a change if and only if the public or secret part changed |
| `VaultCredentials.VaultService.CreateCredential` | internal/app/vault_service.go:239-263 | a credential is stored sealed under its own public part if and only if it is valid, its vault has room and no active credential there is for the same server |
| `VaultCredentials.VaultsKeepLimits` | internal/pg/vault.go:280-310 | in every sequence of operations no vault holds more than 20 credentials, nor two active ones for one server |
| `VaultCredentials.VaultService.UpdateCredential` | internal/app/vault_service.go:276-349 | the store after an update, and every envelope in it still opens |
| `VaultCredentials.UpdateCallback` | internal/app/vault_service.go:287-346 | the update callback: open, patch, seal again if anything bound or secret changed, report |
| `VaultCredentials.VaultService.PersistOAuthRefresh` | internal/app/vault_oauth.go:198-247 | a refresh result is stored if and only if the refresh token it used is still the stored one |
| `VaultCredentials.VaultService.RefreshOAuth` | internal/app/vault_oauth.go:142-178 | a refresh that other operations interleave with stores its result only over the grant it used |
| `VaultCredentials.CreateBinds` | internal/app/vault_service.go:519-584 | a created credential opens to the secret it was given |
| `VaultCredentials.UpdateKeepsBinding` | internal/app/vault_service.go:287-346 | after an update the envelope opens to exactly the secret asked for, and nothing immutable moved |
| `VaultChanges.UpdateSays` | internal/app/vault_service.go:287-346 | an update is refused if and only if the credential is archived, its metadata would pass 16 entries or the patch is not acceptable; otherwise name, metadata, public part and the secret the envelope opens to are, field by field, kept, cleared or replaced as asked |
| `VaultChanges.CreateSays` | internal/app/vault_service.go:519-584 | a credential is created if and only if its URL, kind, tokens and refresh grant are acceptable, and then has exactly the public part and opens to exactly the secret given |
| `VaultChanges.PersistSays` | internal/app/vault_oauth.go:198-247 | a refresh is stored if and only if the grant is still the one used; access token, refresh token if given and expiry are replaced, and nothing else but the version |
| `VaultChanges.StepSays` | internal/pg/vault.go:280-310 | what one operation makes of the store: a created credential is added if and only if its id is free, its vault holds fewer than 20 and none active there is for its server; an archived one loses its envelope; everything else stays |
| `VaultCredentials.UpdateReport` | internal/app/vault_service.go:341-346 | the report is exact but for metadata: precisely when a change goes unreported and is dropped |
| `VaultCredentials.ComparisonMisses` | internal/app/vault_service.go:943-953 | precisely when the metadata comparison takes different maps for equal |
| `VaultCredentials.RenamingDropped` | internal/app/vault_service.go:303-346 | whatever the credential, replacing a metadata entry by an empty one under a new key is accepted and lost |
| `VaultCredentials.PersistKeepsBinding` | internal/app/vault_oauth.go:198-247 | storing a refresh keeps the envelope openable and replaces only the tokens and the expiry |
| `VaultCredentials.ReachableOpens` | internal/app/vault_service.go:717-730 | every credential reachable by any sequence of operations opens under the data built from its stored public part |
| `VaultCredentials.ZoneMatters` | internal/app/vault_service.go:712-715 | a stored update of an openable credential keeps it openable if and only if the expiry was kept in UTC or the patch asks for another public part or secret |
| `MemoryListing.ProjectMemoryList` | internal/app/memory_service.go:494-522 | the loop produces the roll-up |
| `MemoryListing.ListingCovers` | internal/app/memory_service.go:494-522 | every memory is listed under its own path or its directory, and nothing else is listed |
| `MemoryListing.ListingExactly` | internal/app/memory_service.go:494-522 | exactly what is listed: at depth 1 the memories of the directory itself and, as directories, those right below it that hold the others; at any other depth every memory |
| `MemoryListing.ListingIncreases` | internal/app/memory_service.go:494-522 | the listing of path-sorted memories is strictly increasing, though it rolls directories up |
| `MemoryListing.KeysFollow` | internal/app/memory_service.go:494-522 | rolling up keeps byte order, and equal keys are one directory |
| `MemoryListing.ListPage` | internal/app/memory_service.go:247-260 | one page: the first items past the cursor, and whether more follow |
| `MemoryListing.FollowPages` | internal/app/memory_service.go:221-261 | following pages terminates, and sees every item exactly once, in order, when the listing is strictly increasing; with pages of one item only then |
| `MemoryListing.EveryPageSize` | internal/app/memory_service.go:221-261 | following pages sees the listing at every page size if and only if the listing is strictly increasing |
| `MemoryListing.CollationLoses` | internal/app/memory_service.go:221-261 | whatever two memories stand in another order than that of bytes, pages of one show only the first |
| `MemoryListing.ListAllMemories` | internal/app/memory_service.go:221-261 | paged listing equals unpaged listing for path-sorted memories, at either depth and any page size |
| `StreamAssembler.DecodeMessageStream` | internal/model/anthropic.go:417-577 | the decoder assembles each block from its own events only, in order of first appearance, and hands out exactly the callbacks |
| `StreamAssembler.StepBlocks` | internal/model/anthropic.go:466-519 | how one event changes the live blocks and their order |
| `StreamAssembler.ChunkingInverted` | internal/model/anthropic.go:417-577 | whatever way a response's blocks are cut into deltas and interleaved, the decoder rebuilds exactly its blocks in the order they started |
| `StreamAssembler.InterleavingIrrelevant` | internal/model/anthropic.go:417-577 | only each block's own events and the order of first appearance matter to the content |
| `StreamAssembler.EventsCommute` | internal/model/anthropic.go:417-577 | anywhere in a stream two neighbouring events of different blocks may trade places, unless both are the first of their block, without any change to the response |
| `StreamAssembler.PiecesSpellText` | internal/model/anthropic.go:506-510 | the text a block starts with followed by its callback pieces is the block's text |
| `StreamAssembler.UsageIsLastCarried` | internal/model/anthropic.go:579-610 | every usage field of the response is the last value the stream carried for it, or zero |
| `StreamAssembler.StopReasonIsLast` | internal/model/anthropic.go:520-523 | the response's stop reason is the last one carried, or empty |
| `StreamAssembler.OrderPicked` | internal/model/anthropic.go:466-519 | the blocks of a response are ordered by their first start or delta |
| `StreamAssembler.CallbacksPicked` | internal/model/anthropic.go:466-519 | the callbacks are one for each piece of text, in order, and one for the first thinking block |
| `MountPaths.AcceptedIsMount` | internal/domain/session_resource.go:245-310 | every accepted path is clean, strictly below the uploads root, and within the length limits |
| `MountPaths.AcceptedIsFixed` | internal/domain/session_resource.go:245-298 | accepted paths are fixed points of the function |
| `MountRules.RequestedExactly` | internal/domain/session_resource.go:258-310 | a requested path is accepted if and only if it is absolute plain text that climbs nowhere, names something besides the root and the uploads root, and fits 255 bytes a component and 1024 in all once placed; it stays where it is below the uploads root and is put below it otherwise |
| `MountRules.DefaultExactly` | internal/domain/session_resource.go:245-268 | without a requested path the file is mounted under its own id, if and only if that is plain text of at most 255 bytes without a slash and not a dot component |
| `MountPaths.ConflictIsPrefix` | internal/domain/session_resource.go:312-320 | on mount paths the conflict test is exactly "one component list is a prefix of the other" |
| `MountPaths.BelowIsExtension` | internal/domain/session_resource.go:312-320 | one path lies below another if and only if its components extend the other's |
| `MountPaths.PrepareMounts` | internal/controlplane/session_resource_service.go:91-113 | either every path is accepted and conflicts with no other, or the first that fails says why |
| `MountPaths.MountsSucceed` | internal/domain/session_resource.go:312-320 | mounting a list of files succeeds if and only if no path is a prefix of another, and gives the tree of the set of mounts |
| `MountPaths.OrderIrrelevant` | internal/domain/session_resource.go:312-320 | accepted mounts may be materialized in any order: the tree is the same |
| `MountPaths.AcceptedMounts` | internal/controlplane/session_resource_service.go:91-113 | beside resources whose paths are apart, the loops accept a list if and only if all of them together are |
| `MountPaths.PreparedMounts` | internal/controlplane/session_resource_service.go:91-113 | what PrepareForSession accepts can be mounted beside what the session has, in any order, to one tree |
| `MountPaths.AdmitBytes` | internal/controlplane/session_resource_service.go:115-136 | the aggregate byte limit is tested exactly, without adding past it |
| `Accounting.Session.TransitionStatus` | internal/domain/session.go:383-399 | the timing projection after a transition |
| `Accounting.ActiveIsTimeRunning` | internal/domain/session.go:383-414 | over any allowed run with a non-decreasing clock, observable active time is exactly the time spent running |
| `Accounting.TransitionKeepsActive` | internal/domain/session.go:383-399 | a transition never changes the active time observed at its own instant |
| `Accounting.ActiveWithinDuration` | internal/domain/session.go:401-414 | active time never exceeds duration |
| `Accounting.RunsExactly` | internal/domain/session.go:10-24 | the runs of a session are the sequences of statuses from idle in which nothing follows termination, only running is rescheduled and no status repeats, at times that do not go back |
| `Accounting.DurationIs` | internal/domain/session.go:401-414 | the duration runs from creation to termination, or to now |
| `Accounting.BudgetStaysReached` | internal/domain/budget.go:93-101 | a reached budget stays reached while the budget and the knowledge of the cost are unchanged and the model cost does not decrease |
| `Accounting.BudgetReachedExactly` | internal/domain/budget.go:93-112 | over any run a budget is reached if and only if the cost is unknown, or the model cost and 80,000,000 nano-dollars an hour of running come to ten million times its cents, rounded at the half |
| `Accounting.RuntimeCostRounds` | internal/domain/budget.go:103-112 | the runtime cost is within half a nano-dollar of the hourly price |
| `Accounting.TableExact` | internal/domain/budget.go:135-217 | every table rate, in fast mode too, makes every division exact |
| `Accounting.CostLinear` | internal/domain/budget.go:155-167 | the cost is linear in every counter, for every token count, geography and speed |
| `Accounting.ListCostSays` | internal/domain/budget.go:135-217 | which models have a price, which two of them in fast mode, and the cost of every usage in terms of the list: input and output, a quarter more than input for five-minute cache entries, twice for hour ones, a tenth for reads, a tenth on top in the US for the models that are dearer there, and a cent a web search |
| `Accounting.MillionTokens` | internal/domain/budget.go:135-217 | a million input and a million output tokens cost what the list says for the model and speed |
| `Accounting.Add` | internal/domain/usage.go:45-53 | every counter is added and the accumulator keeps its own speed |
| `Accounting.ListCostAdds` | internal/domain/usage.go:45-53 | cost is additive over Add if and only if the added usage costs the same at the accumulator's speed |
| `Accounting.BatchesCostTheSame` | internal/domain/budget.go:135-168 | however rounds at one speed are batched, their cost is the cost of their total |
| `Accounting.GroupingIrrelevant` | internal/domain/budget.go:135-168 | however rounds at one speed are grouped into sums, pricing the sums costs the same as pricing the rounds |
| `Accounting.CentsRound` | internal/domain/budget.go:46-55 | the public amount is monotone, within half a cent and never negative |
| `Accounting.AdmittedBudgetFits` | internal/httpapi/sessions.go:560-568 | a number of cents is admitted if and only if the product that is compared does not wrap around 64 bits, and no other spelling is admitted past that |
| `Accounting.BudgetRoundTrip` | internal/httpapi/sessions.go:560-568 | the decimal form of an admissible number of cents is admitted as that number |
| `Accounting.BudgetCanonical` | internal/httpapi/sessions.go:560-568 | an admitted amount is the decimal form of its value if and only if it carries no sign |
| `Accounting.AdmittedExactly` | internal/httpapi/sessions.go:560-568 | an amount is admitted as a number of cents if and only if it is that number in digits, after a sign or without a leading zero, at most 922,337,203,685, a negative one only as zero |

## Left out

- Preview frames emitted by the agent loop: they answer nothing and cannot fail; the live tail models what happens to them.
- Temporal workflows, sandboxes, MCP, HTTP handlers, query parsing, cursor encoders and transport: plumbing around the models.
- PostgreSQL, NATS and the object store: modelled by their contracts only, as atomic steps, lossy channels and calls that may fail or be answered late.
- JSON, base64, SHA-256, encryption, cron and regular expressions: encodings are carried as such, the cipher is ideal, the JSON decoder of streamed tool input and the URL check of credentials are parameters, and upcoming occurrences are arbitrary.
- Server-sent event framing: the decoder starts from parsed events, and an error reading the stream is an undecodable last event, which discards the response after the same callbacks.
- Unicode white space and case folding, and NFC normalization of memory paths: strings are bytes.
- Field validation of names, metadata limits on create, and display names: single-branch checks.
- The sub-second rounding of floating-point seconds.
- Orphan blobs: an ignored delete error leaves a blob without a row; nothing is claimed about it.
- Archived sessions, session resources copied for a session, and Git mount paths: only the mount-path and byte-budget loops are modelled.
- `DeleteEmptySkill` after a failed first Skill Version, and the version clock: Skill Versions share the intent protocol of files and nothing more.
- Leases of schedule claims: safety is proved for any workers, whatever leases say.
- AgentLoop.Run: model previews and tool schemas are not part of the requests.
- VaultCredentials.VaultService.CreateCredential: does not model vaults themselves, so a missing or archived vault is not refused.
- VaultCredentials.VaultService.RefreshOAuth: does not model reusing a concurrently refreshed access token, only what is stored.
- Compaction.CompactMessages: private usage anchors are carried along and never computed.
- History.ProjectMessages: file snapshots attached to documents arrive as already rendered text.
- ScheduledRuns.RunScheduled: how an error message is classified is arbitrary, so every error type is covered.
- OutputPublishing.Publish: does not say when a whole publication succeeds, only when each file's does (`BlobIntents.PublishOne`).
