# Kocort: verified model of the agent runtime's core

Kocort runs chat agents: it prepares a conversation for a model provider, calls the model and its tools round after
round, retries with other models and API keys when a call fails, and serves editors through an ACP bridge. This Dafny
project models the parts of it whose correctness is not visible from any single function, and proves what they promise.

- **Chat history** (`Messages`, `OpenAISanitizer*`, `HistoryFilters`, `Repair*`, `HistoryTurns`, `ToolCallIds`,
  `HistoryPipeline`, `HistoryMeaning`, `SanitizedContents`, `DistinctIds`, `Deduplication`, `TurnCuts`, `Pipeline*`,
  `SecondPass`, `Conversation`). Providers reject a conversation unless every assistant message with tool calls is
  followed at once by exactly the results of those calls, in call order, and no other results exist. That is
  `BlockForm`, a small automaton over messages; `BlockFormIsPaired` shows that it is the same thing read off positions.
  `SanitizeOpenAICompatMessages` establishes block form on every list whatever. The eight layers of the pipeline keep it
  exactly when the call ids suit the policy (`PipelineKeepsBlockFormIff`, for every policy, with or without a turn
  limit). The contents survive, too. The sanitizer keeps exactly the well-formed calls that are answered, with their
  arguments and last answers (`SanitizeKeepsExchanges`), and every word of users, assistants and the system. Through the
  pipeline nobody is misquoted (`NobodyIsMisquoted`), and the results of allowed calls come through, cut at 32000
  characters (`ResultsComeThrough`). `Conversation` puts the pieces together, from raw messages to the prompt of any
  round.
- **Tool loop** (`LoopDetector`, `RoundLoop`, `RoundRecords`). The loop keeps a window of rounds and stops when rounds
  repeat or alternate. It is proved to behave like a detector that remembers every round, and to stop exactly at its
  threshold; its messages are those of the completed rounds, and each exit has its cause.
- **Local prompt** (`LlamaPrompt`, `LlamaMeaning`). The local backend cuts the history to a token budget and only then
  sanitizes it.
- **ACP bridge** (`RateLimiter`, `BridgeSessions`, `PendingPrompts`, `SessionPrompts`). A sliding-window limiter, a
  bounded session table and the pending-prompt protocol, whose locked sections interleave freely.
- **API keys** (`AuthCooldown`, `AuthProfiles`, `AuthRuns`, `AuthRotation`). Backoff as a function of history, probe
  spacing, and fair rotation.
- **Model references and retries** (`ModelSelection`, `CallLoop`, `BrainModels*`), **streamed tool calls**
  (`StreamAccumulator`, `StreamNames`) and **context pruning** (`ContextPruning`).

`Text`, `TextWords`, `Sets` and `Sublists` are shared: trimming, words, sets, and lists without some of their elements
told by positions. Code that updates things in place is modelled by classes and methods with loops. Each is tied to a
function or relation on values, and the theorems are about those. Map iteration order, random characters, clocks and the
behaviour of models and tools are left open: they are parameters or arbitrary choices.

## What the code does not promise

Some properties hold only under a condition. The model keeps the code as it is, states the condition, and shows inputs
that fail.

- **Repeated call ids spoil the prompt.** The repair of layer 3 answers an id only once, so it keeps block form if and
  only if no id is called twice (`RepairKeepsBlockFormIff`). The pipeline runs on its own output: once before the first
  request and again in every round. Layer 8 can give two calls one id, and the next pass then drops a result. From the
  different ids `a-b` and `ab`, a policy with strict ids sends a prompt that is not in block form
  (`LayerEightCanSpoilThePrompt`); strict9 keeps only nine characters. The ids stay different if and only if layer 8
  keeps those it is given apart (`RewriteKeepsDistinctIff`, `FirstPipeline`). `PromptIsBlockFormIff` says for every
  policy exactly which runs are affected: without repair none; with repair those in which an id of the part that the
  turn limit keeps was called before; if the policy also strips dangling calls, only those in which one message of that
  part repeats an id not called before. A second application leaves the output of the first as it is exactly when the
  ids stayed different or the policy does not repair (`SecondPassChangesNothingIff`).
- Removing disallowed tools (layer 2) looks up calls by their raw id and results by the trimmed id. With distinct ids it
  keeps block form if and only if the removed ids carry no white space (`FilterKeepsBlockForm`, `UntrimmedCallBreaks`).
  Ids with white space do not reach the pipeline in this program: sanitized messages and validated calls have clean ids
  (`SanitizedIsClean`, `ValidatedAreClean`).
- Likewise only for lists the program does not build: layer 8 leaves an id with white space around it as it is when its
  trimmed form needs no change (`UntrimmedIdStays`, exact condition in `RewriteMakesWellFormedIff`).
- Merging user turns keeps all images and other parts if and only if no user message with parts directly follows another
  (`MergeKeepsPartsIff`); otherwise the parts of the merged-in message are gone. So the pipeline keeps all parts of what
  its turn limit keeps if and only if the policy merges no user turns or that holds after layer 2
  (`PipelineKeepsPartsIff`). Under the policy for Claude models, a greeting followed by an image comes out without the
  image (`ImageIsLost`).
- Alternating rounds are stopped only if the critical threshold is at least 4, and warned of only if the warning
  threshold is (`AlternationStopsIffWindowFits`, `PingPongStopWarnedOnce`).
- Sanitizing a prompt for the local model can push it over the budget it was cut to. It cannot exactly when no assistant
  message calls an id twice (`NeverRaisedIffUnique`).
- A success does not lift a billing deadline, so the profile stays unavailable (`SuccessMakesAvailableIff`).
- Selecting a profile to probe and recording the probe are two locked sections. Probes are 30 seconds apart when they do
  not interleave (`ProbesAreSpaced`); wherever a run allows a probe, two callers that do interleave probe at once
  (`ProbesCollideFrom`, `ProbesCanCollide`).
- Registering a profile again under another provider leaves it listed under the first
  (`RegisterKeepsHomedIffNotMoved`).
- When several candidates fail, the reason a backend attached to its error no longer decides about a retry; the wording
  of the summary does (`SeveralFailuresLoseTheirReasons`).
- Shortening a tool result makes it longer when what is cut out is less than what the notice adds
  (`SoftTrimShortensIff`).
- Deleting the last referenced model can bring back stale references from the agent defaults
  (`DeleteKeepsConsistentIff`, `DeletingTheLastModelCanDangle`).
- A streamed chunk without an index commutes with an indexed one if and only if that slot exists already
  (`UnindexedCommutesIff`).

## Model

| member | source | states |
|---|---|---|
| Messages.BlockFormIsPaired | internal/backend/openai_history.go:208-276 | the automaton accepts a list exactly when each message's calls are answered in place, in order, and every result is owned by a call |
| OpenAISanitizer.RolesAreRead | internal/backend/openai_history.go:182-206 | a role in any case, with white space around it, is read as the one it spells, and no other text as any |
| OpenAISanitizer.ValidateCallsEach | internal/backend/openai_history.go:310-331 | a call list is accepted iff each call is, and one bad call rejects all |
| OpenAISanitizer.ValidateOpenAICompatToolCalls | internal/backend/openai_history.go:310-331 | the loop returns the cleaned calls of the whole list, or an error at the first bad one |
| OpenAISanitizer.ValidateCallsAre | internal/backend/openai_history.go:310-331 | accepted iff every call has an id, a name and the kind "function" or none; each keeps its arguments and index |
| OpenAISanitizer.SanitizeOpenAICompatMultiContent | internal/backend/openai_history.go:284-308 | keeps exactly the parts with non-blank text or a non-blank image URL |
| OpenAISanitizer.SanitizeOpenAICompatMessages | internal/backend/openai_history.go:182-280 | the index loop computes the specification `Sanitize`, about which the theorems below are |
| OpenAISanitizer.CollectResults | internal/backend/openai_history.go:221-253 | reads exactly the run of tool messages after an assistant message and files results of its calls only |
| OpenAISanitizerTheorems.SanitizeIsBlockForm | internal/backend/openai_history.go:182-280 | any list at all becomes block form without adjacent system messages |
| OpenAISanitizerTheorems.SanitizeIsNormal | internal/backend/openai_history.go:182-280 | any list becomes the flattening of turns with nothing left to clean |
| OpenAISanitizerTheorems.FixedPoints | internal/backend/openai_history.go:182-280 | the lists left unchanged are exactly the flattenings of normal turn lists |
| OpenAISanitizerTheorems.SanitizeIdempotent | internal/backend/openai_history.go:182-280 | a second application changes nothing, on any input |
| HistoryMeaning.NothingSaidIsLost | internal/backend/openai_history.go:182-280 | what users and assistants said is the same before and after, in order, on any input |
| HistoryMeaning.NoInstructionIsLost | internal/backend/openai_history.go:182-206 | merged or not, system messages keep every word, in order, on any input |
| SanitizedContents.SanitizeKeepsExchanges | internal/backend/openai_history.go:182-276 | on any input the calls and results are, in order, those of well-formed messages that a following tool message answers, with the contents of the call and of its last answer |
| SanitizedContents.CleanPartsShow | internal/backend/openai_history.go:284-308 | exactly the parts that show something are kept, texts trimmed and images as they are |
| HistoryMeaning.LastResultWins | internal/backend/openai_history.go:221-253 | a called id is answered iff a message of the run names it, and by the last one that does |
| HistoryFilters.DropThinkingBlocksFromHistory | internal/backend/history_sanitize.go:79-102 | layer 1: only assistant text changes; a message that would become empty keeps a note |
| HistoryFilters.SanitizeToolCallInputs | internal/backend/history_sanitize.go:110-163 | layer 2: the loops compute `FilterTools`, which removes calls and results by id |
| HistoryFilters.FilterKeepsBlockForm | internal/backend/history_sanitize.go:110-163 | with distinct ids layer 2 keeps block form iff every removed id is trimmed |
| HistoryFilters.UntrimmedBreaks | internal/backend/history_sanitize.go:110-163 | a removed id with white space leaves its result behind, unpaired |
| HistoryFilters.UntrimmedCallBreaks | internal/backend/history_sanitize.go:110-163 | a list in block form with distinct ids for which that happens |
| HistoryMeaning.FilterLeavesAllowedCalls | internal/backend/history_sanitize.go:110-163 | with distinct ids layer 2 leaves exactly the allowed calls, in order |
| Repair.RepairToolUseResultPairing | internal/backend/history_sanitize.go:172-236 | layer 3: the output is related to the input by `Repaired`, whatever order missing ids are flushed in |
| RepairTheorems.ExactlyOneResult | internal/backend/history_sanitize.go:172-236 | on any list: one result for each non-blank called id, none for any other id |
| RepairTheorems.ResultAfterCall | internal/backend/history_sanitize.go:172-236 | every result comes after a call of its id and no other result of it |
| RepairTheorems.AllAnsweredBefore | internal/backend/history_sanitize.go:172-236 | before a message that is neither assistant nor tool, all calls so far are answered |
| RepairTheorems.ResultsWellPlaced | internal/backend/history_sanitize.go:172-236 | every output is well placed, which the two rows above read off by position |
| RepairTheorems.NonToolSurvives | internal/backend/history_sanitize.go:172-236 | all other messages survive in order |
| RepairNotes.RealOrNote | internal/backend/history_sanitize.go:172-236 | every message afterwards was there before, or is the note for a call, naming its tool |
| RepairTheorems.RepairIdempotent | internal/backend/history_sanitize.go:172-236 | repairing a repaired list changes nothing, for every choice of flush order |
| RepairTheorems.ReadyNeedsNoRepair | internal/backend/history_sanitize.go:172-236 | block form with distinct clean ids is left unchanged |
| DistinctIds.RepairKeepsBlockFormIff | internal/backend/history_sanitize.go:172-236 | on clean ids the repair keeps block form iff no id is called twice |
| DistinctIds.RepairFallsShortIff | internal/backend/history_sanitize.go:172-236 | a repaired list has as many results as calls iff no id was called twice, on any list with clean ids |
| Deduplication.RepairedIsDedup | internal/backend/history_sanitize.go:172-236 | on block form with clean ids the repair has one result: repeated results dropped |
| HistoryFilters.StripToolResultDetails | internal/backend/history_sanitize.go:246-270 | layer 4: only tool results over the limit are cut |
| HistoryTurns.StripDanglingToolCalls | internal/backend/history_sanitize.go:294-340 | layer 5: each message keeps the calls that the run after it answers |
| HistoryTurns.NothingDangles | internal/backend/history_sanitize.go:294-340 | on block form with clean ids nothing is stripped |
| HistoryTurns.MergeConsecutiveTurns | internal/backend/history_sanitize.go:347-374 | layers 5 and 6: the loop computes the left-to-right merge of turns |
| HistoryTurns.MergeKeepsBlockForm | internal/backend/history_sanitize.go:347-374 | merging user or assistant turns never splits a block |
| HistoryTurns.MergeSeparates | internal/backend/history_sanitize.go:347-374 | on any list, no two adjacent messages have the merged role afterwards |
| HistoryMeaning.MergeKeepsWords | internal/backend/history_sanitize.go:347-374 | on any list, merging keeps every word of the texts, in order and apart |
| HistoryMeaning.MergeKeepsPartsIff | internal/backend/history_sanitize.go:347-374 | merging keeps all parts iff no message with parts directly follows one of the merged role |
| HistoryMeaning.MergeKeepsCalls | internal/backend/history_sanitize.go:347-374 | merging moves calls together but loses none and keeps their order |
| HistoryTurns.LimitHistoryTurns | internal/backend/history_sanitize.go:382-419 | layer 7: the backward scan finds the cut of `LimitTurns` |
| HistoryTurns.LimitKeepsBlockForm | internal/backend/history_sanitize.go:382-419 | the cut never falls inside a block |
| HistoryTurns.CutKeepsLimit | internal/backend/history_sanitize.go:382-419 | what is kept has exactly min(limit, all) user messages |
| HistoryTurns.CutIsAfterUser | internal/backend/history_sanitize.go:382-419 | a cut that drops anything falls right after a user message |
| ToolCallIds.SanitizeToolCallIDs | internal/backend/history_sanitize.go:427-491 | layer 8: the loops compute the renaming of `RewriteIds` |
| ToolCallIds.SanitizeId | internal/backend/history_sanitize.go:499-517 | every rewritten id has the form its mode asks for, whatever the random characters |
| ToolCallIds.RewriteKeepsBlockForm | internal/backend/history_sanitize.go:427-491 | a call and its result are renamed alike, even where ids merge |
| ToolCallIds.RewrittenIdsWellFormed | internal/backend/history_sanitize.go:427-517 | where call ids were clean, every call id has the asked form afterwards |
| DistinctIds.RewriteMakesWellFormedIff | internal/backend/history_sanitize.go:427-517 | in the strict modes all ids come out well formed iff, where nothing is rewritten, they were so, and otherwise none was blank |
| DistinctIds.RewriteKeepsDistinctIff | internal/backend/history_sanitize.go:427-517 | clean ids are different afterwards iff they were and layer 8 keeps them apart |
| ToolCallIds.UntrimmedIdStays | internal/backend/history_sanitize.go:427-491 | an id that needs rewriting only for its white space keeps it |
| ToolCallIds.RewriteCanMergeIds | internal/backend/history_sanitize.go:499-517 | strict mode gives two different ids the same rewritten id |
| HistoryPipeline.SanitizeHistoryPipeline | internal/backend/history_sanitize.go:20-68 | the layers run in order, and a ready history comes out in block form |
| HistoryPipeline.PipelineKeepsBlockForm | internal/backend/history_sanitize.go:20-68 | for every policy and tool set, block form with distinct clean ids is kept through all eight layers |
| PipelineTexts.FrontScript | internal/backend/history_sanitize.go:79-163 | on any list, after layers 1 and 2 everybody says what they said, assistants without think blocks; a note only where nothing is left and no call is made |
| PipelineTexts.FrontResults | internal/backend/history_sanitize.go:110-163 | on any list, exactly the results of disallowed calls go with layer 2 |
| PipelineTexts.PipelineScript | internal/backend/history_sanitize.go:20-68 | for every policy, what is said is that of the part kept by the turn limit, with a note only for a message that says nothing and merely repeats calls |
| PipelineTexts.NobodyIsMisquoted | internal/backend/history_sanitize.go:20-68 | from a ready list every word said outside tool results comes through, in order and under its role |
| PipelineTexts.ResultsComeThrough | internal/backend/history_sanitize.go:20-68 | from a ready list the results of allowed calls come through in order, whole or as their first 32000 characters and a notice |
| PipelineConditions.PipelineKeepsBlockFormIff | internal/backend/history_sanitize.go:20-68 | from block form with clean ids: for every policy and turn limit, kept iff the ids that pass layer 2 suit the policy |
| PipelineConditions.MiddleOfRecent | internal/backend/history_sanitize.go:40-60 | what layers 3 to 7 leave is the first system message and what the part kept by the turn limit becomes by itself |
| PipelineConditions.SuitsWithoutLimit | internal/backend/history_sanitize.go:40-60 | without a turn limit the condition is that all ids differ, or for stripping policies that no message repeats a new id |
| TurnCuts.CutIsAfterTurn | internal/backend/history_sanitize.go:347-419 | told before merging, the cut drops whole turns and leaves exactly the limit |
| TurnCuts.CutIsCutIndex | internal/backend/history_sanitize.go:395-410 | where no user turns are merged, it is the index found by the scan of layer 7 |
| TurnCuts.TurnedUsers | internal/backend/history_sanitize.go:347-374 | after layers 4 to 6 there is one user message for each turn of the user |
| TurnCuts.TurnedConcat | internal/backend/history_sanitize.go:246-374 | layers 4 to 6 treat two parts separately where the first ends with a whole turn |
| Deduplication.StrippedIsBlockForm | internal/backend/history_sanitize.go:172-340 | repair and stripping leave block form where no message repeats a new id |
| Deduplication.StrippedCounts | internal/backend/history_sanitize.go:172-340 | afterwards there are at most as many results as calls, and as many iff no message repeats a new id |
| PipelineParts.PipelineKeepsPartsIff | internal/backend/history_sanitize.go:20-68 | all parts of what the turn limit keeps are sent iff no user turns are merged or none with parts follows another after layer 2 |
| PipelineParts.FirstMessagesKeepPartsIff | internal/backend/openai_compat_backend.go:168-172 | from any raw messages, without a turn limit: a run starts with all their parts iff that holds |
| PipelineParts.ImageIsLost | internal/backend/history_sanitize.go:347-374 | two messages the sanitizer leaves alone, a text and an image, from which the Claude policy makes a list without the image |
| SecondPass.SecondPassChangesNothingIff | internal/backend/openai_compat_backend.go:223-225 | from a ready list the pipeline leaves its own output alone iff it does not repair or the ids came out different |
| SecondPass.OutputSettles | internal/backend/history_sanitize.go:20-68 | nothing is left to cut, to merge or to limit |
| PipelineConditions.PipelineKeepsDistinctIff | internal/backend/history_sanitize.go:20-68 | from a ready list: the ids sent differ iff layer 8 keeps those it is given apart |
| PipelineConditions.FrontIds | internal/backend/history_sanitize.go:29-37 | exactly the ids not removed by layer 2 pass, in order |
| HistoryPipeline.PipelineIdsWellFormed | internal/backend/history_sanitize.go:20-68 | every call the provider sees has an id of the form its mode asks for |
| HistoryMeaning.PipelineKeepsAllowedCalls | internal/backend/history_sanitize.go:20-68 | the calls sent are the most recent allowed ones, in order, and all of them without a turn limit; no disallowed call gets through |
| HistoryPipeline.PipelineKeepsClean | internal/backend/history_sanitize.go:20-68 | the pipeline's output has clean call ids again, so a later round can start from it |
| Conversation.SanitizedIsClean | internal/backend/openai_compat_backend.go:478-568 | what the sanitizer makes of any messages is in block form with clean ids |
| Conversation.SanitizedIsReady | internal/backend/openai_compat_backend.go:478-568 | and ready for the pipeline iff its call ids are distinct |
| Conversation.FirstMessagesAreBlockFormIff | internal/backend/openai_compat_backend.go:168-172 | from any messages: what a run starts with is in block form iff the ids suit the policy |
| Conversation.FirstPipeline | internal/backend/openai_compat_backend.go:168-172 | from distinct ids: what a run starts with is in block form, with distinct ids iff layer 8 keeps the sent ids apart |
| Conversation.FirstPromptIsTheFirstPassIff | internal/backend/openai_compat_backend.go:168-225 | from distinct ids: the first prompt is what the first pass made iff, where the policy repairs, layer 8 kept the sent ids apart |
| Conversation.PromptIsBlockFormIff | internal/backend/openai_compat_backend.go:223-225 | for every policy, when a prompt is in block form, told from the ids of the first messages and the completed rounds that layer 2 keeps |
| Conversation.EveryPromptOfARun | internal/backend/openai_compat_backend.go:121-298 | every prompt of a run is in block form if the raw ids differ, layer 8 keeps them apart, and the rounds use new, different ids |
| Conversation.LayerEightCanSpoilThePrompt | internal/backend/openai_compat_backend.go:168-225 | a run from two different ids whose first prompt is not in block form |
| LoopDetector.NormalizeCritical | internal/backend/model_round_loop.go:68-76 | the critical threshold always exceeds the warning threshold |
| LoopDetector.NormalizeWarning | internal/backend/model_round_loop.go:61-66 | positive, 10 by default |
| LoopDetector.CountTrailingIdenticalRounds | internal/backend/model_round_loop.go:91-104 | counts the longest constant suffix |
| LoopDetector.CountTrailingPingPongRounds | internal/backend/model_round_loop.go:106-130 | counts the longest suffix of period two between different rounds, from four rounds on |
| LoopDetector.StreakIsLongest | internal/backend/model_round_loop.go:91-130 | a suffix repeats with the period iff it is no longer than the streak |
| LoopDetector.WindowLosesNothing | internal/backend/model_round_loop.go:322-360 | for a window of at least four rounds both counters are the full ones, capped at the window |
| LoopDetector.ShortWindowHidesPingPong | internal/backend/model_round_loop.go:322-360 | a shorter window hides every alternation |
| LoopDetector.WindowedCountersAreFull | internal/backend/model_round_loop.go:322-360 | a loop that has not stopped sees the counters of a detector that remembers everything |
| LoopDetector.StopRoundIsFirst | internal/backend/model_round_loop.go:322-360 | the stop comes at the first round with a verdict, if there is one |
| LoopDetector.IdenticalStopWarnedOnce | internal/backend/model_round_loop.go:322-341 | a stop for identical rounds comes at a streak of exactly the threshold, warned of once, at the warning threshold |
| LoopDetector.PingPongStopWarnedOnce | internal/backend/model_round_loop.go:342-360 | a stop for alternation was warned of once in its course iff the warning threshold is at least 4 |
| LoopDetector.EventuallyConstantStops | internal/backend/model_round_loop.go:322-360 | rounds that become constant stop the loop within the critical threshold |
| LoopDetector.EventuallyAlternatingStops | internal/backend/model_round_loop.go:322-360 | rounds that start to alternate do, for a threshold of at least 4 |
| LoopDetector.AlternationStopsIffWindowFits | internal/backend/model_round_loop.go:322-360 | a long enough alternation is stopped iff the critical threshold is at least 4 |
| RoundLoop.RunStandardModelToolLoop | internal/backend/model_round_loop.go:132-397 | the loop with its cut window refines a loop with an unbounded detector: same exit, messages and warnings |
| RoundLoop.RunToolCalls | internal/backend/model_round_loop.go:207-304 | validated calls, then one result per call in order, success or failure |
| RoundLoop.TurnAppendsBlock | internal/backend/openai_compat_backend.go:222-271 | a round appends one assistant message and one result per call, in block form, with their contents, and changes nothing before |
| RoundLoop.TurnRecords | internal/backend/openai_compat_backend.go:222-271 | a round appends the trimmed text with its cleaned calls and then what each call returned, or ends the loop and leaves no trace |
| RoundRecords.LoopRecords | internal/backend/model_round_loop.go:132-397 | however a run ends, its messages are those at the start and then exactly those of the completed rounds |
| RoundRecords.LoopEndsForCause | internal/backend/model_round_loop.go:132-397 | each exit has its cause, and a positive round limit is never exceeded |
| RoundLoop.LoopKeepsBlockForm | internal/backend/model_round_loop.go:132-397 | the accumulated messages are in block form wherever the loop stops |
| RoundLoop.LoopIds | internal/backend/model_round_loop.go:207-304 | the ids of the accumulated messages are those at the start and those of the completed rounds |
| RoundLoop.EveryPromptIsBlockFormIff | internal/backend/openai_compat_backend.go:203-298 | whatever model and tools do, a prompt is in block form iff the ids that pass layer 2 suit the policy |
| RoundLoop.StopsExactlyAtThreshold | internal/backend/model_round_loop.go:132-397 | any run: its history is that of its tool rounds, its warnings are theirs, and it ends for lack of progress exactly at the first round the detector says so |
| RoundLoop.IdenticalRunsEnd | internal/backend/model_round_loop.go:322-360 | any run whose rounds stay identical for the critical threshold has ended by then |
| RoundLoop.AlternatingRunsEnd | internal/backend/model_round_loop.go:322-360 | any run that alternates that long has ended by then, for a threshold of at least 4 |
| RoundLoop.WarnedExactlyOnce | internal/backend/model_round_loop.go:322-360 | a run that ended for lack of progress reported its last streak exactly once; an alternation iff the warning threshold is at least 4 |
| LlamaPrompt.EstimateLlamaMessagesTokens | internal/backend/local_backend.go:500-519 | the nested loops add up the characters of messages, calls and tools, a quarter of which is the estimate |
| LlamaPrompt.EstimateCounts | internal/backend/local_backend.go:500-519 | a quarter of the characters of roles, texts, calls and tools, plus 8 for each message, 16 for each call and 32 for each tool |
| LlamaPrompt.PromptBudget | internal/backend/local_backend.go:118-127 | three quarters of the context, rounded down, never below 256; 1536 without a context size |
| LlamaPrompt.TruncateLlamaMessagesToFit | internal/backend/local_backend.go:524-555 | shifts in place; the result is the first message and the longest suffix that fits, or first and last if none does |
| LlamaPrompt.BestCutIsLongest | internal/backend/local_backend.go:524-555 | if any suffix fits, the result fits and is at least as long |
| LlamaPrompt.CutIsUnique | internal/backend/local_backend.go:524-555 | messages, tools and budget determine the cut |
| LlamaPrompt.SanitizeLlamaMessages | internal/backend/local_backend.go:654-745 | the index loop computes the specification `SanitizeLlama` |
| LlamaPrompt.SanitizeLlamaIsBlockForm | internal/backend/local_backend.go:654-745 | any list becomes block form, also one that was cut inside a block |
| LlamaMeaning.NothingSaidIsLost | internal/backend/local_backend.go:654-745 | what users and assistants said is the same before and after, in order, on any input |
| LlamaMeaning.NoInstructionIsLost | internal/backend/local_backend.go:654-745 | merged or not, system messages keep every word, in order, on any input |
| SanitizedContents.SanitizeLlamaKeepsExchanges | internal/backend/local_backend.go:654-745 | the calls and results are those of the raw list's exchanges, with their contents, on any input |
| LlamaPrompt.SanitizeNeverRaises | internal/backend/local_backend.go:654-745 | if no assistant message calls an id twice, sanitizing never raises the estimate |
| LlamaPrompt.NeverRaisedIffUnique | internal/backend/local_backend.go:654-745 | an assistant message is safe from every run of results iff it calls no id twice |
| LlamaPrompt.FirstPrompt | internal/backend/local_backend.go:115-179 | the first prompt is in block form and within budget; it is refused iff not even the first and last message fit |
| RateLimiter.Limiter.constructor | internal/acpbridge/server.go:186-205 | starts with an empty, consistent log |
| RateLimiter.Limiter.Enforce | internal/acpbridge/server.go:1044-1065 | filters the log, refuses iff 120 acceptances are recent, otherwise logs the call; the log stays sorted and bounded |
| RateLimiter.RunIsConsistent | internal/acpbridge/server.go:1044-1065 | over any run the log holds exactly the recent acceptances, and the 121st comes a window after the first |
| RateLimiter.AtMostLimitPerWindow | internal/acpbridge/server.go:1044-1065 | no half-open ten-second window holds more than 120 accepted creations |
| RateLimiter.RefusedIffWindowFull | internal/acpbridge/server.go:1044-1065 | a call is refused iff the window ending now holds 120 acceptances |
| BridgeSessions.BridgeServer.ReapIdleSessions | internal/acpbridge/server.go:1067-1077 | removes exactly the stale idle sessions, in any iteration order |
| BridgeSessions.BridgeServer.EvictOldestIdleSession | internal/acpbridge/server.go:1079-1096 | removes an idle session with the least LastTouchedAt, if there is an idle one |
| BridgeSessions.BridgeServer.UpsertBridgeSession | internal/acpbridge/server.go:581-620 | reaps, evicts at the limit, then adds or touches the session |
| BridgeSessions.BridgeServer.GetBridgeSession | internal/acpbridge/server.go:623-631 | touches a known session and changes nothing else |
| BridgeSessions.BridgeServer.SetSessionRun | internal/acpbridge/server.go:633-641 | marks a known session as running |
| BridgeSessions.BridgeServer.ClearSessionRun | internal/acpbridge/server.go:643-650 | clears the run only if it is still the given one |
| BridgeSessions.TableIsBounded | internal/acpbridge/server.go:581-592 | the table never exceeds max(5000, 1 + peak number of running sessions) |
| BridgeSessions.RunningSessionsStay | internal/acpbridge/server.go:1067-1096 | a session is never removed while its run is in progress |
| BridgeSessions.UpsertRemovesOnlyIdle | internal/acpbridge/server.go:581-592 | what an upsert removes had no run, and was not touched for 24 hours or is the oldest such among 5000 in use |
| BridgeSessions.UpsertKeepsSessionsInUse | internal/acpbridge/server.go:581-620 | exactly the sessions with a run or touched within 24 hours stay, unchanged; a new session among 5000 of them displaces the one without a run touched longest ago |
| PendingPrompts.PromptTable.RegisterPendingPrompt | internal/acpbridge/server.go:652-661 | files a fresh empty channel for the session under the trimmed run id |
| PendingPrompts.PromptTable.ClearPendingPrompt | internal/acpbridge/server.go:663-674 | removes the entry only if it matches the run |
| PendingPrompts.PromptTable.TakePendingPrompt | internal/acpbridge/server.go:676-684 | takes the matching entry out and hands over its channel |
| PendingPrompts.PromptTable.Send | internal/acpbridge/server.go:685-689 | drops the reason iff the buffer of one is full |
| PendingPrompts.StepsAreTheMethods | internal/acpbridge/server.go:652-689 | the protocol's channel steps change entries and buffers as the methods promise |
| PendingPrompts.ResolveTakesIff | internal/acpbridge/server.go:676-684 | a resolve takes the entry if it names its run, or no run at all |
| PendingPrompts.AtMostOneReason | internal/acpbridge/server.go:652-689 | under every interleaving each channel gets at most one reason and no send is dropped |
| PendingPrompts.ResolveReachesOnlyItsRun | internal/acpbridge/server.go:676-689 | a reason sent for a named run goes to that run's channel |
| PendingPrompts.NewestKeepsEntry | internal/acpbridge/server.go:423-427 | an older prompt's cleanup never removes the newest prompt's pending entry |
| PendingPrompts.NewestKeepsRun | internal/acpbridge/server.go:423-427 | nor its CurrentRunID, which also protects its session |
| SessionPrompts.TableStepsAreProtocolSteps | internal/acpbridge/server.go:581-650 | every operation of the session table is matched by protocol steps with the same effect on all CurrentRunIDs |
| SessionPrompts.LeadsReaches | internal/acpbridge/server.go:581-689 | those steps lead from reachable states to reachable ones |
| SessionPrompts.NewestKeepsSession | internal/acpbridge/server.go:423-427 | the table keeps the session and run of the newest prompt to set it until that prompt finishes |
| AuthCooldown.LadderClimbs | internal/backend/auth_cooldown.go:58-109 | each ladder is monotone in the error count, capped at 1h, 2h or 24h, and at its cap from the fourth error on |
| AuthCooldown.FirstRungs | internal/backend/auth_cooldown.go:12-18 | the first four steps of each ladder, as documented |
| AuthProfiles.AuthProfileStore.constructor | internal/backend/auth_profiles.go:82-88 | starts empty |
| AuthProfiles.AuthProfileStore.Register | internal/backend/auth_profiles.go:91-112 | adds or replaces a profile, keeps its state, lists it once under its provider |
| AuthProfiles.AuthProfileStore.SelectProfile | internal/backend/auth_profiles.go:117-184 | the available profile used least recently, first listed on ties; else the first that may be probed; else none |
| AuthProfiles.AuthProfileStore.RecordSuccess | internal/backend/auth_profiles.go:187-200 | resets errors and cooldown of this profile only, and not its billing deadline |
| AuthProfiles.AuthProfileStore.RecordFailure | internal/backend/auth_profiles.go:203-225 | counts the error and sets the deadlines of its reason's ladder |
| AuthProfiles.AuthProfileStore.RecordProbe | internal/backend/auth_profiles.go:228-237 | notes the probe time of this profile only |
| AuthProfiles.ChoiceIsUnique | internal/backend/auth_profiles.go:117-184 | the state of the store determines what a selection returns |
| AuthProfiles.RegisterKeepsIndexed | internal/backend/auth_profiles.go:91-112 | every provider keeps listing known profiles, none twice |
| AuthProfiles.RegisterKeepsHomedIffNotMoved | internal/backend/auth_profiles.go:91-112 | listed profiles belong to their provider after a registration iff the profile has not moved |
| AuthProfiles.InlineTestIsProbeEligible | internal/backend/auth_profiles.go:154-184 | the inline probe test is IsProbeEligible for profiles whose billing deadline has passed |
| AuthProfiles.CoolingOnlyAsProbe | internal/backend/auth_profiles.go:117-184 | a cooling profile is returned only as a probe in its last two minutes, never before its billing deadline |
| AuthRuns.StateIsHistory | internal/backend/auth_profiles.go:187-237 | at every point of every run a profile's state is a function of its own outcomes |
| AuthRuns.ErrorsAreStreak | internal/backend/auth_profiles.go:187-225 | ConsecutiveErrors counts the failures since the last success |
| AuthRuns.CooldownIsLadder | internal/backend/auth_profiles.go:203-225 | during a streak CooldownUntil is the last failure plus its ladder value |
| AuthRuns.NoStreakNoCooldown | internal/backend/auth_profiles.go:187-200 | without failures since the last success there is no cooldown |
| AuthRuns.BillingIsLastBilling | internal/backend/auth_profiles.go:214-218 | BillingDisabledUntil is set by the last billing failure and by nothing else |
| AuthRuns.SuccessMakesAvailableIff | internal/backend/auth_profiles.go:187-200 | a success makes the profile available iff its billing deadline has passed |
| AuthRuns.BillingOutlastsSuccess | internal/backend/auth_profiles.go:187-200 | a history that ends in a success with the profile still unavailable |
| AuthRuns.NoProfileIsLockedOut | internal/backend/auth_profiles.go:117-237 | in every run a profile is available a day after its last outcome |
| AuthRuns.ProbesAreSpaced | internal/backend/auth_profiles.go:154-184 | probes selected after the previous one was recorded are at least 30 seconds apart |
| AuthRuns.ProbesCollideFrom | internal/backend/openai_compat_backend.go:147-152 | wherever a run allows a probe, two interleaved callers record two probes of the profile in one instant |
| AuthRuns.ProbesCanCollide | internal/backend/openai_compat_backend.go:147-152 | a run: one profile is registered, fails once, is selected twice for a probe, and both probes are recorded in one instant |
| AuthRuns.RunIsIndexed | internal/backend/auth_profiles.go:91-112 | in every run each provider lists known profiles, none twice |
| AuthRotation.RotationIsStore | internal/backend/auth_profiles.go:117-200 | the steps of a rotation are those of the store |
| AuthRotation.EachOnce | internal/backend/auth_profiles.go:128-152 | with k healthy profiles any k consecutive uses take each exactly once |
| AuthRotation.RotationRepeats | internal/backend/auth_profiles.go:128-152 | the order of the first k uses repeats |
| ModelSelection.NormalizeProviderIdempotent | internal/backend/model_selection.go:29-47 | normal provider ids stay as they are |
| ModelSelection.ProviderAliases | internal/backend/model_selection.go:29-47 | the nine aliases and nothing else are replaced, in any case and with white space around them |
| ModelSelection.ParseWithoutSlash | internal/backend/model_selection.go:65-73 | a blank text is rejected; one without a slash names a model of the default provider |
| ModelSelection.ParseAtFirstSlash | internal/backend/model_selection.go:65-81 | otherwise the first slash divides provider and model, neither blank |
| ModelSelection.KeyRoundTrip | internal/backend/model_selection.go:58-81 | a key parses back to its reference iff no part is missing and the provider has no slash |
| ModelSelection.ParsedProviderHasNoSlash | internal/backend/model_selection.go:65-81 | parsed references are in normal form with no slash in the provider |
| ModelSelection.ResolveFallbackCandidates | internal/backend/model_selection.go:206-225 | the loop with its seen set computes the candidate list |
| ModelSelection.CandidatesAreDistinct | internal/backend/model_selection.go:206-225 | the primary comes first, keys are distinct, and every fallback that parses is covered |
| ModelSelection.CandidatesComeFrom | internal/backend/model_selection.go:206-225 | behind the primary come references read from the fallbacks, in order; none under a session override |
| CallLoop.RunWithModelFallback | internal/backend/model_fallback.go:35-76 | stops at the first success and records exactly the failed prefix, or reports the failure of all |
| CallLoop.OutcomesUnique | internal/backend/model_fallback.go:35-76 | what the candidates do determines the result of a pass |
| CallLoop.ModelCallLoop | runtime/pipeline_execute.go:138-302 | the loop with its two flags makes a run: which passes are retried, as what, and how the last one ends |
| CallLoop.AtMostThreePasses | runtime/pipeline_execute.go:148-252 | at most one retry of each kind, so three passes; a retried pass failed and had shown nothing |
| CallLoop.AtMostThreeCallsPerCandidate | runtime/pipeline_execute.go:148-252 | model calls are at most three times the number of candidates |
| CallLoop.VisibleOutputEndsRun | runtime/pipeline_execute.go:207-216 | after visible output there is no retry; a failure is then a partial success |
| CallLoop.CompletesIff | runtime/pipeline_execute.go:138-302 | a run completes with a result iff its last pass gives it first, settles and is stored; if all candidates fail it ends as partial, reset or given up |
| CallLoop.SeveralFailuresLoseTheirReasons | internal/backend/model_fallback.go:63-75 | after several failures a transient retry depends on the wording of the summary alone |
| CallLoop.OneFailureKeepsItsReason | internal/backend/model_fallback.go:63-65 | with one candidate the reason attached to its error decides |
| BrainModels.AppConfig.UpsertBrainModelRecord | api/service/brain.go:70-186 | adds, updates or renames a model along with the references to it; a rejected request changes nothing |
| BrainModels.AppConfig.DeleteBrainModelRecord | api/service/brain.go:189-216 | removes the model and its references, promoting the first fallback |
| BrainModels.AppConfig.SetBrainModelDefault | api/service/brain.go:219-233 | makes a configured model the primary and no fallback |
| BrainModels.AppConfig.SetBrainModelFallback | api/service/brain.go:236-262 | adds or removes a configured model as fallback, unless it is the primary |
| BrainModels.ReplaceModelRef | api/service/brain.go:353-373 | renames a reference everywhere without repeating one |
| BrainModelsEdits.UpsertEdits | api/service/brain.go:70-186 | a complete request is accepted and no other; the provider gets settings and model, a blank API key keeps the stored one, a rename takes the old model away, the rest stays |
| BrainModelsEdits.UpsertedIsThere | api/service/brain.go:119-179 | the requested model is there afterwards, and a replaced one is not |
| BrainModelsEdits.UpsertEditsRefs | api/service/brain.go:176-186 | references are renamed in place, once each; the model becomes the primary if there was none |
| BrainModelsEdits.DeleteEdits | api/service/brain.go:189-216 | a configured model is gone, its provider iff it had no other, everything else stays; the references lose it |
| BrainModelsEdits.SetDefaultEdits | api/service/brain.go:219-233 | a configured model is the primary and no fallback; providers stay |
| BrainModelsEdits.SetFallbackEdits | api/service/brain.go:236-262 | a model that is not the primary is a fallback afterwards iff asked for; the others stay in order |
| BrainModelsTheorems.ReadBack | api/service/brain.go:266-299 | consistent references are read back as written, unless none are left and the defaults show |
| BrainModelsTheorems.UpsertKeepsConsistent | api/service/brain.go:70-186 | after an upsert or rename every reference is a configured model, all different |
| BrainModelsTheorems.DeleteKeepsConsistentIff | api/service/brain.go:189-216 | so after a delete, iff references are left or what the defaults bring back is consistent |
| BrainModelsTheorems.DeletingTheLastModelCanDangle | api/service/brain.go:189-216 | a configuration for which it is not |
| BrainModelsTheorems.SetDefaultKeepsConsistent | api/service/brain.go:219-233 | references stay consistent and the model is read back as primary |
| BrainModelsTheorems.SetFallbackKeepsConsistentIff | api/service/brain.go:236-262 | references stay consistent iff some are left or the defaults are consistent |
| BrainModelsTheorems.EditsKeepConsistent | api/service/brain.go:70-299 | over any sequence of edits all references stay configured, where reads see writes and provider ids have no slash |
| StreamAccumulator.AccumulateOpenAIToolCalls | internal/backend/openai_stream_helpers.go:25-57 | updates the pointed-to calls in place, never sharing one between slots; the view is the merge of all chunks |
| StreamAccumulator.CompactOpenAIToolCalls | internal/backend/openai_stream_helpers.go:61-70 | the present calls in slot order |
| StreamAccumulator.Batching | internal/backend/openai_stream_helpers.go:25-57 | accumulating a and then b is accumulating a + b |
| StreamAccumulator.InterleavingIsIrrelevant | internal/backend/openai_stream_helpers.go:25-57 | indexed streams that agree index by index build the same calls |
| StreamAccumulator.ArgumentsAreOwnPieces | internal/backend/openai_stream_helpers.go:25-57 | a call exists iff a chunk has its index, and its arguments are its own pieces in order |
| StreamNames.NamesAreLastPieces | internal/backend/openai_stream_helpers.go:43-51 | id, kind and name are each the last that its own pieces give |
| StreamAccumulator.UnindexedCommutesIff | internal/backend/openai_stream_helpers.go:34-40 | a chunk without an index commutes with an indexed one iff that slot exists |
| ContextPruning.PruningAssistantCutoff | internal/backend/anthropic_history.go:223-243 | the assistant entry with which the last N begin, or -1 iff there are fewer |
| ContextPruning.AssistantEntries | internal/backend/anthropic_history.go:223-243 | tool calls count as the assistant's, results and events never do, partial output neither, and otherwise the role decides |
| ContextPruning.ApplyContextPruning | internal/backend/anthropic_history.go:173-219 | every entry is kept, shortened or cleared, as its turn and the two budgets decide; length unchanged |
| ContextPruning.BudgetsAreShares | internal/backend/anthropic_history.go:193-194 | each budget is its own ratio of the prunable characters, rounded down |
| ContextPruning.DecimalReadsBack | internal/backend/anthropic_history.go:317-349 | the numbers in the notices are those measured |
| ContextPruning.ClearedSays | internal/backend/anthropic_history.go:338-346 | a cleared result carries the configured words, or the default ones, and its former length |
| ContextPruning.ShortResultsStay | internal/backend/anthropic_history.go:317-336 | results up to the limit, 4000 by default, or no longer than head and tail stay as they are |
| ContextPruning.OthersStay | internal/backend/anthropic_history.go:173-268 | everything from the cutoff on and every ineligible entry is unchanged |
| ContextPruning.OvershotByLastOnly | internal/backend/anthropic_history.go:194-217 | each budget is overshot by at most its last item |
| ContextPruning.OldestFirst | internal/backend/anthropic_history.go:199-217 | no result is shortened while an older one that could be was passed over |
| ContextPruning.KeptOnlyWhenSpent | internal/backend/anthropic_history.go:199-217 | a result that could be shortened is kept only when both budgets are spent or clearing is off |
| ContextPruning.SpentWithinPrunable | internal/backend/anthropic_history.go:186-217 | the two budgets together never pay for more than there is |
| ContextPruning.TreatmentsUnique | internal/backend/anthropic_history.go:199-217 | the rule determines what happens to each entry |
| ContextPruning.SoftTrimShortensIff | internal/backend/anthropic_history.go:317-336 | shortening keeps head and tail around a gap, then the notice, and is shorter iff these are shorter than the original |

## Left out

- Strings are sequences of characters: lengths and cuts count characters where Go counts UTF-8 bytes, and lower-casing
  is ASCII only. Durations and times are unbounded integers, float ratios are reals.
- Slice aliasing between a message list and the list it was made from: messages are values, so a merge that writes
  through a pointer into the output list is modelled, one that would also reach the caller's list is not.
- Message fields the history code only passes along (refusals, reasoning, usage, media).
- Think-block removal, fingerprints, error classification, tool-name patterns, the wording of summaries and random
  characters are parameters. Removing think blocks is not assumed to be idempotent.
- RunStandardModelToolLoop: final payloads, media lists, usage maps and lifecycle events other than the loop warnings
  are not modelled; a model round and a tool call are arbitrary outcomes.
- SecondPassChangesNothingIff: where the policy drops think blocks, the remover is assumed to find none in the output of
  the first pass.
- EveryPromptIsBlockFormIff: covers the OpenAI loop; the Anthropic loop reuses result blocks across rounds in a way that
  depends on its SDK.
- FirstPrompt: starts from converted messages; the conversion from OpenAI messages and tools is not modelled.
- Enforce: the retry delay in the error message and the growth of the log's slice are not modelled; the array has room
  for the 120 entries the log never exceeds.
- UpsertBridgeSession: configuration fields of a session and pointers to it held outside the table are not modelled.
- ResolveReachesOnlyItsRun: callers read CurrentRunID without the lock, so the run a resolve names is arbitrary.
- SelectProfile: profiles and states are values in maps; a caller keeping a pointer to a profile is not modelled.
- ProfilesForProvider, GetState, GetProfile and CountForProvider of the profile store: copies of what is modelled.
- ModelCallLoop: compaction, session reset, storage and delivery are outcomes of a pass; calls made by compaction are
  not counted.
- UpsertBrainModelRecord: presets, sorting of a provider's models and their numeric settings are not modelled; the
  agent list is reduced to the entry of the default agent.
- EditsKeepConsistent: provider ids with slashes are excluded, since their keys are split differently when read back.
- ApplyContextPruning: when pruning is switched on at all (mode, time to live, last call) is not modelled.
- Transcript conversion, Anthropic message merging, HTTP handlers, provider SDKs, the session store, task scheduling,
  delivery and the web interface.
