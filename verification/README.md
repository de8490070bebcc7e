# Verified cores of mentra

A Dafny model of the parts of mentra, an agent runtime and its provider client, whose
correctness depends on whole runs rather than on one function: the conversation tree, the
streaming decoder and collector, the gateway ring, compaction, the tool registry, the agent
event bus and frontmatter.

Objects the program updates in place are classes here, and its loops are loops. Each such
method is proved equal to a pure function or predicate on values, and what the system promises
is proved about those, for every input and every run. `dafny verify dfyconfig.toml` checks
everything.

| file | models |
|---|---|
| `base.dfy`, `entries.dfy` | result types; the transcript entry and parent linking |
| `transcript.dfy` | the conversation tree: push, branch, reload |
| `children.dfy` | the order in which the children of an entry are listed |
| `frames.dfy` | cutting a byte stream into server-sent event frames |
| `collector.dfy` | provider events, the response collector and the response printer |
| `accepts.dfy` | which event sequences are collected into which response, told by the events |
| `stream.dfy`, `forward.dfy` | the chat-completions decoder and its transport loop |
| `reading.dfy` | what a streamed completion says, told by the fields of its chunks |
| `ring.dfy`, `rotation.dfy` | the gateway ring's health, and one call through the ring |
| `compaction.dfy` | rewriting a transcript around a summary |
| `salvage.dfy` | which entries outlive a compaction, told by their positions |
| `registry.dfy`, `visibility.dfy` | the three-layer tool registry, and what an agent offers and allows |
| `eventbus.dfy` | the two-lock event bus as interleaved steps |
| `frontmatter.dfy` | scanning, parsing and quoting frontmatter |

## Main results

- **Tree.** Every run of pushes and branches keeps a well-formed tree that holds exactly the
  entries given to its pushes, each under the entry that was the leaf at that moment. Branching always lands on the root-to-target chain, whether it truncated
  or walked, and forgets where the leaf was before. On arbitrary stored data, cyclic or dangling
  or with duplicate ids, the walk stops, answers exactly when a chain exists, and a refused
  branch changes nothing. Children are listed once each, the active one first and the others in
  the order they last left the active path; that this is the order of creation *fails*
  (`ChildrenOutOfOrder`), and `CreationOrderExactlyWhen` says when it holds.
- **Streaming.** What a consumer receives is a function of the bytes, not of how they were
  chunked. For every sequence of decoded chunks, with the end marker anywhere or nowhere, the
  collector accepts every event sent and rebuilds the response the fields of the chunks speak of:
  one block each for reasoning, text and tool call number, in the order of first mention, each the
  concatenation of what was said for it (`OutcomeTells`, and `TellsOnce`: there is only one such
  response). The one failure is a tool call whose joined arguments are not JSON. Any event sequence
  is collected if and only if it meets a condition on the events alone, and into what they say
  (`CollectsExactlyWhen`, `CollectedIsTold`). Printing any response as events and collecting them
  gives it back.
- **Ring.** Under every interleaving of callers: streaks stay below the threshold and equal the
  counted failures since the last arrival or success, a rotation happens exactly when due and
  reports exactly that count, and departures never outnumber arrivals. A call at any moment goes to
  the most preferred member left at least one cooldown ago, and stays put if there is none; a
  rotation goes to the nearest member that is not resting (`SelectsByHistory`, `RotatesByHistory`).
  Drift back to the
  preferred member *fails* in general (`LateSuccessKeepsRingAway`); `DriftsBack` says exactly
  where a call goes instead, and `SingleCallerDriftsHome` that one caller at a time is enough. A
  call makes at most as many attempts as there are members, and no call ever comes back to a
  member it has tried if and only if the ring has at most two members, no cooldown, or a cooldown
  of zero (`DistinctExactlyWhen`); the attempts are then at consecutive members.
- **Compaction.** No run of appends and compactions loses a file path, every survivor is a
  verbatim original, and tool exchanges keep their assistant turn. What survives is told by
  position: the newest turns the budget allows, the delegation results with fewer than the limit
  after them, the summary, and the tail (`CompactionSelects`, `LastEntryStays`).
- **Registry.** Over every sequence of operations, guard drops included, each generation ever
  issued is in the slot it was issued for or its handler was handed back, exactly once. Dropping a
  guard removes its registration if and only if that has not been handed back before, and is
  otherwise inert. In every run a name resolves to the nearest registration not handed back:
  agent before audience before global. Each operation's effect on everyone's resolution is exact,
  and a registration whose guard is dropped leaves no trace. Offered equals callable, and each
  restriction withholds exactly what it names.
- **Event bus.** At every moment of every interleaving each tap's calls are a contiguous stretch
  of the broadcast order, none happens after its guard's drop returned, every event given to a send
  is broadcast by it exactly once, and the locks cannot deadlock.
- **Frontmatter.** Any fields with distinct valid keys, with any values, above any body, read
  back exactly; so does any value between double or single quotes, whatever may legally follow.
  Every kind of line that is no entry is refused with its reason.

## How to read the model

- Code outside the model enters as a parameter: the JSON reader and printer, decoding one frame,
  token estimates, the file-path pattern, the summariser's prose, summary rendering, a handler's
  current descriptor, the clock, and what other callers do between two transitions. Statements
  hold for every choice, and only the response round trip assumes that the JSON reader undoes the
  JSON printer, on the tool inputs of the response at hand.
- Instants are integers and are never assumed to arrive in order.
- The registry's ghost fields are a ledger: the slot and handler each generation was issued for,
  and the generations handed back. Every method is proved to be one step of the relation `Moves` on
  layers and ledger together, `Run` is any sequence of such steps from an empty registry, and
  `PerformAll` says that whatever the program does is such a run.
- In the event bus one action is one atomic step of one thread. `logs`, `from`, `until` and
  `dropped` only record what happened; no step looks at them.
- Handlers and taps are numbers, and error texts are reduced to their reasons (a frontmatter error
  keeps its line number).

Where code and documentation disagree the model follows the code. The comment on `children`
(`mentra/src/transcript.rs`) promises creation order, which `ChildrenOutOfOrder` shows to fail and
`ChildrenOrder` replaces. The last comparison in `scan` (`mentra/src/frontmatter.rs`), after its
loop, can never succeed, because the lines of a text cover all of it; the loop alone decides.

## Model

| member | source | states |
|---|---|---|
| `Transcript.RootedUnique` | mentra/src/transcript.rs:224-251 | an id has at most one parent chain to a root, on any data |
| `Transcript.RootedDistinct` | mentra/src/transcript.rs:224-251 | a rooted chain never repeats an id, even when stored ids are duplicated |
| `Transcript.RootedBound` | mentra/src/transcript.rs:239-249 | pigeonhole: a rooted chain is no longer than the tree, so the walk's length guard never refuses one |
| `Transcript.TrailMeetsChain` | mentra/src/transcript.rs:224-251 | a walk in progress is strictly shorter than the chain, and stands on its remaining prefix |
| `Transcript.BrokenMeansNoChain` | mentra/src/transcript.rs:224-251 | a walk refused for a missing parent or for length had no chain to find |
| `Transcript.TakeOne` | mentra/src/transcript.rs:254-260 | taking an id yields the entry the lookup names, loses nothing, and leaves every other id's lookup alone |
| `Transcript.TakeAllDistinct` | mentra/src/transcript.rs:207-216 | taking distinct present ids one by one always finds each of them and conserves the rest |
| `Transcript.TakeChain` | mentra/src/transcript.rs:207-216 | taking a chain's ids yields that chain, so the branch never hits its impossible case |
| `Transcript.BranchConserves` | mentra/src/transcript.rs:192-221 | on any data a branch loses, copies and alters no entry, and an error changes nothing |
| `Transcript.BranchReachesTarget` | mentra/src/transcript.rs:192-221 | a branch succeeds exactly for ids in the tree; the new active path is the root-to-target chain whichever case ran |
| `Transcript.BranchKeepsWellFormed` | mentra/src/transcript.rs:192-221 | branching keeps the tree well formed |
| `Transcript.PushKeepsWellFormed` | mentra/src/transcript.rs:275-278 | pushing an entry with a fresh id keeps the tree well formed |
| `Transcript.BranchForgetsOldLeaf` | mentra/src/transcript.rs:192-221 | two transcripts of one tree have the same active path after branching to one id |
| `Transcript.BranchThereAndBack` | mentra/src/transcript.rs:192-221 | branching away and back to the old leaf restores the active path, and the archive up to order |
| `Transcript.BranchCountsAbandoned` | mentra/src/transcript.rs:192-221 | the returned count is the number of entries on the old path and not on the new |
| `Transcript.RunKeepsTree` | mentra/src/transcript.rs:192-278 | every run of pushes and branches is well formed and holds exactly the entries given to its pushes, field for field, each under what was the leaf before it |
| `Transcript.RunHoldsWhatWasPushed` | mentra/src/transcript.rs:192-278 | parents aside, what a run holds in the end is, as a multiset, what its push operations brought, told by the operations alone |
| `Transcript.LinkIdentity` | mentra/src/transcript.rs:143-149 | linking changes nothing exactly when no later entry lacks a parent |
| `Transcript.ReloadIsIdentity` | mentra/src/transcript.rs:122-149 | reloading any reachable transcript from its parts gives the same transcript |
| `Transcript.AgentTranscript.FromParts` | mentra/src/transcript.rs:122-126 | the loaded active path is the stored one with only missing links filled in |
| `Transcript.AgentTranscript.LinkActivePath` | mentra/src/transcript.rs:143-149 | the in-place loop links every entry to its predecessor, writing missing links only |
| `Transcript.AgentTranscript.PathTo` | mentra/src/transcript.rs:224-251 | stops on any data; answers exactly when a chain exists, with that chain's ids root first; an error names the missing parent, or the target for endless links |
| `Transcript.AgentTranscript.TakeAnywhere` | mentra/src/transcript.rs:254-260 | removes the first holder of the id, active path before archive; absent ids change nothing |
| `Transcript.AgentTranscript.BranchFrom` | mentra/src/transcript.rs:192-221 | both cases and both errors, on any data, as the relation the lemmas above are about |
| `Transcript.AgentTranscript.PushItem` | mentra/src/transcript.rs:275-278 | the entry becomes the child of the current leaf |
| `TranscriptChildren.ChildCount` | mentra/src/transcript.rs:173-179 | an entry is listed as often as it is there if its parent is the one asked for, else not at all, on any data |
| `TranscriptChildren.ChildrenListedOnce` | mentra/src/transcript.rs:169-179 | after any run every child is listed, and listed once |
| `TranscriptChildren.RunOrdersArchive` | mentra/src/transcript.rs:192-278 | after any run the archive is in the order in which its entries last left the active path |
| `TranscriptChildren.SiblingsLeaveApart` | mentra/src/transcript.rs:192-221 | no step takes two siblings off the active path |
| `TranscriptChildren.ChildrenOrder` | mentra/src/transcript.rs:169-179 | after any run, of two children the one listed first is the active one, or else the one that last left the active path earlier |
| `TranscriptChildren.ChildrenOutOfOrder` | mentra/src/transcript.rs:169-179 | two pushes, a branch to the first entry and another push list the younger child first |
| `TranscriptChildren.CreationOrderExactlyWhen` | mentra/src/transcript.rs:169-179 | children are in creation order if and only if of any two the elder is active, or neither is and the elder last left earlier |
| `Frames.BoundaryIsFirstBlank` | mentra-provider/src/chat_completions/sse.rs:87-97 | the boundary found is the first blank line of either spelling; none is found only when there is none |
| `Frames.FirstBlankIsBoundary` | mentra-provider/src/chat_completions/sse.rs:87-97 | conversely, the first blank line is what is found |
| `Frames.BoundaryIsStable` | mentra-provider/src/chat_completions/sse.rs:48-70 | a boundary found in what has arrived stays the first one of the whole stream |
| `Frames.SplitExtends` | mentra-provider/src/chat_completions/sse.rs:48-70 | framing a prefix and then the rest equals framing the whole |
| `Frames.SplitIsClean` | mentra-provider/src/chat_completions/sse.rs:48-97 | frames, delimiters and remainder concatenate to the stream, and no frame hides an earlier blank line |
| `Frames.CleanIsUnique` | mentra-provider/src/chat_completions/sse.rs:48-97 | no other way of cutting the stream has those properties |
| `Collector.CutsDoNotMatter` | mentra-provider/src/response.rs:323-434 | where accumulating text is cut into deltas makes no difference, for every kind of block and of delta that accumulates, tool-result text over structured content included |
| `Collector.ApplyAllFails` | mentra-provider/src/response.rs:57-67 | the first rejected event decides the error |
| `Collector.ApplyBlockEvents` | mentra-provider/src/response.rs:588-702 | a printed block is received whole, for every block kind |
| `Collector.ApplyContentEvents` | mentra-provider/src/response.rs:84-101 | printed content leaves exactly its blocks, complete and in place |
| `Collector.CollectUndoesPrint` | mentra-provider/src/response.rs:84-275 | expanding any response into events and collecting them gives it back, if the JSON reader undoes the printer on its tool inputs |
| `Collector.StreamingResponseBuilder.Receive` | mentra-provider/src/response.rs:198-238 | one event's exact effect; a rejected event changes nothing |
| `Collector.StreamingResponseBuilder.BuildContents` | mentra-provider/src/response.rs:257-265 | blocks come out in index order; the first unfinished or unreadable one is the error |
| `Collector.StreamingResponseBuilder.Finish` | mentra-provider/src/response.rs:240-275 | the order of the end-of-stream checks, and the response built |
| `Collector.CollectResponse` | mentra-provider/src/response.rs:57-67 | the receive loop computes the collector's specification |
| `CollectorAccepts.CollectsExactlyWhen` | mentra-provider/src/response.rs:198-275 | a response comes out if and only if every delta and stop is for a started block of the right kind, the message was started and stopped, every block was stopped again and every tool input is JSON |
| `CollectorAccepts.CollectedIsTold` | mentra-provider/src/response.rs:198-434 | heading of the last start, reason and usage of the last message delta, and one block an index in index order, each field told by the deltas since its last start: joined, replaced or kept |
| `CollectorAccepts.RefusesWith` | mentra-provider/src/response.rs:240-265 | an orderly stream that is not stopped ended early, one never started has no id, and otherwise the first unfinished or unreadable block is to blame |
| `CollectorAccepts.ResultOneMore` | mentra-provider/src/response.rs:323-434 | a tool result is the last structured content with the text after it, or its start with all text added |
| `ChatStream.OpeningsDistinct` | mentra-provider/src/chat_completions/sse.rs:221-299 | each block is opened once, in order of first sight |
| `ChatStream.EmitInStep` | mentra-provider/src/chat_completions/sse.rs:201-312 | whatever one delta emits is accepted, and leaves the collector holding exactly the drafts so far |
| `ChatStream.CloseConcludes` | mentra-provider/src/chat_completions/sse.rs:144-169 | closing completes every block and records the last reason and usage |
| `ChatStream.BuildAsPromised` | mentra-provider/src/response.rs:240-275 | a concluded collector builds the promised response, or fails exactly when some arguments are not JSON |
| `ChatStream.HandleAllTracks` | mentra-provider/src/chat_completions/sse.rs:172-312 | after any readable frames every event sent was accepted and the collector stands where the chunks say |
| `ChatStream.StreamCollectsAsPromised` | mentra-provider/src/chat_completions/sse.rs:136-312 | blocks in first-sight order, each the concatenation of its own deltas, first heading, last reason, last usage, up to the first end marker |
| `ChatForward.StreamState.Allocate` | mentra-provider/src/chat_completions/sse.rs:136-141 | indices are dense and every allocated one is opened |
| `ChatForward.StreamState.Finish` | mentra-provider/src/chat_completions/sse.rs:144-169 | closes once: a late start, the stops in opening order, the final delta, the stop |
| `ChatForward.StreamState.ApplyChunk` | mentra-provider/src/chat_completions/sse.rs:201-312 | one chunk emits what its flat deltas emit in order; nothing after the end |
| `ChatForward.StreamState.ReadFrame` | mentra-provider/src/chat_completions/sse.rs:172-199 | a frame is quiet, the end marker, a chunk, or the error that ends the stream |
| `ChatForward.OutcomeInTwoSteps` | mentra-provider/src/chat_completions/sse.rs:48-70 | handling the frames that have arrived first and the rest later comes out the same |
| `ChatForward.Drain` | mentra-provider/src/chat_completions/sse.rs:52-69 | the inner loop reads exactly the complete frames of the buffer and keeps the remainder |
| `ChatForward.Forward` | mentra-provider/src/chat_completions/sse.rs:38-83 | the events sent are a function of the concatenated bytes, however they were chunked |
| `ChatForward.FailsIfUnreadable` | mentra-provider/src/chat_completions/sse.rs:172-199 | the stream fails exactly when some frame is unreadable |
| `ChatForward.OutcomeCollects` | mentra-provider/src/chat_completions/sse.rs:38-83 | end to end: bytes that close cleanly are collected into the promised response |
| `ChatReading.GatheredIsSaid` | mentra-provider/src/chat_completions/sse.rs:226-304 | what is gathered for a block is that field of every choice of every chunk, joined; for call n the arguments of the deltas numbered n |
| `ChatReading.LastsAreTold` | mentra-provider/src/chat_completions/sse.rs:222-332 | the stop reason is the last any choice gives, and each usage count is the one of its name in the last usage reported |
| `ChatReading.SpotsLayOut` | mentra-provider/src/chat_completions/sse.rs:226-299 | blocks come in the order the stream first speaks of them: within a choice reasoning, text, then tool calls in order; a block exists for exactly what is spoken of |
| `ChatReading.PromisedTells` | mentra-provider/src/chat_completions/sse.rs:201-332 | the promised response is what the chunk fields say, id and name of a call from its first delta; there is one exactly when every call's joined arguments are JSON |
| `ChatReading.TellsOnce` | mentra-provider/src/chat_completions/sse.rs:201-332 | the chunks speak of at most one response |
| `ChatReading.DecimalReads` | mentra-provider/src/chat_completions/sse.rs:282 | the position a missing call id falls back on is written in decimal without a leading zero |
| `ChatReading.LiveIsBefore` | mentra-provider/src/chat_completions/sse.rs:172-204 | the chunks that count are those before the first end marker, all of them |
| `ChatReading.OutcomeTells` | mentra-provider/src/chat_completions/sse.rs:38-332 | end to end: from any bytes with readable frames the collector rebuilds the response the chunk fields speak of |
| `RingHealth.StepSound` | mentra-provider/src/gateway_ring/health.rs:114-313 | every transition keeps streaks below the threshold, resting and probationary streaks at zero, and the current member awake |
| `RingHealth.PlaySound` | mentra-provider/src/gateway_ring/health.rs:199-264 | so does every interleaving |
| `RingHealth.StreakIsCount` | mentra-provider/src/gateway_ring/health.rs:222-264 | the current streak is the number of counted failures since its last success or arrival |
| `RingHealth.RotatesExactlyWhenDue` | mentra-provider/src/gateway_ring/health.rs:231-264 | after any interleaving, a failure rotates if and only if it is due by what happened before, and reports the threshold, one on probation, zero when immediate |
| `RingHealth.ArrivalStartsOver` | mentra-provider/src/gateway_ring/health.rs:285-301 | an arrival resets the member, on probation if it had been left; the member left is stamped; nobody else changes |
| `RingHealth.MarksAreHistory` | mentra-provider/src/gateway_ring/health.rs:114-147 | any member carries a departure time exactly while the ring is away from it with no success since, namely that of the last rotation out of it, and is on probation exactly when the ring last came back to it from there, has not rotated out again and it has not answered since |
| `RingHealth.AheadIsModulo` | mentra-provider/src/gateway_ring/health.rs:269-283 | ring order is counting modulo the number of members |
| `RingHealth.RotatesToNearest` | mentra-provider/src/gateway_ring/health.rs:269-283 | a rotation goes to the nearest eligible member in ring order, or the very next one if none is |
| `RingHealth.SelectsByHistory` | mentra-provider/src/gateway_ring/health.rs:143-219 | after any interleaving, at any moment, a call goes to the least member before the current one that the ring is away from and last left at least one cooldown ago, and says it returned; else it stays |
| `RingHealth.RotatesByHistory` | mentra-provider/src/gateway_ring/health.rs:143-283 | after any interleaving, a rotation goes to the nearest member in ring order that is not resting by that history, or the very next one if all are |
| `RingHealth.DeparturesNeedArrivals` | mentra-provider/src/gateway_ring/health.rs:226-283 | over any interleaving rotations out of a member never exceed arrivals at it |
| `RingHealth.DepartureRecorded` | mentra-provider/src/gateway_ring/health.rs:222-301 | a preferred member carries a departure time unless a later success erased it |
| `RingHealth.DriftsBack` | mentra-provider/src/gateway_ring/health.rs:199-219 | one cooldown after every rotation, a call goes to the most preferred member with no success since it was left, else stays; so to member 0 if and only if the ring is there or member 0 has had no success since it was left |
| `RingHealth.SingleCallerLeavesMarks` | mentra-provider/src/gateway_ring/health.rs:231-301 | one caller at a time: every preferred member carries a departure time |
| `RingHealth.SingleCallerDriftsHome` | mentra-provider/src/gateway_ring/health.rs:199-219 | one caller at a time: one cooldown after the last rotation a call goes to member 0 |
| `RingHealth.LateSuccessKeepsRingAway` | mentra-provider/src/gateway_ring/health.rs:222-224 | with concurrent callers that fails: a late success of the member just left keeps the ring away at any later time |
| `GatewayRings.ConsecutiveIsDistinct` | mentra-provider/src/gateway_ring.rs:405-467 | consecutive attempts within one turn of the ring are at distinct members |
| `GatewayRings.GatewayRing.Transition` | mentra-provider/src/gateway_ring.rs:382-390 | the shared health after other callers' transitions and this one |
| `GatewayRings.GatewayRing.Report` | mentra-provider/src/gateway_ring.rs:419-461 | a call goes on only after a failure of the member's own that rotated the ring |
| `GatewayRings.GatewayRing.WithRotation` | mentra-provider/src/gateway_ring.rs:405-467 | at most as many attempts as members; the last attempt's own answer; earlier attempts all failed; each attempt is where selection or the last rotation led; in a ring of at most two, without a cooldown or with a cooldown of zero, the members tried are consecutive and distinct, whatever other callers do |
| `GatewayRings.AttemptsInOrder` | mentra-provider/src/gateway_ring.rs:405-467 | in such a ring every call's attempts are at consecutive, distinct members, from any state and under any interleaving |
| `GatewayRings.DistinctExactlyWhen` | mentra-provider/src/gateway_ring.rs:405-467 | no call ever comes back to a member it has tried, under any interleaving and after any past, if and only if the ring has at most two members, no cooldown, or a cooldown of zero |
| `GatewayRings.NextAttempt` | mentra-provider/src/gateway_ring.rs:434-462 | the next member tried is what ring order gives after the failed one at that moment, and in a ring of two or more another one |
| `GatewayRings.CooldownRevisits` | mentra-provider/src/gateway_ring.rs:405-467 | in every ring of three or more with a cooldown above zero there is a past and an interleaving in which one call tries members 0, 1 and 0 again |
| `Compaction.AccumulateUnites` | mentra/src/compaction.rs:714-723 | the list is extended at its end, gains exactly the new paths, and stays free of repeats |
| `Compaction.KeptTurnsFit` | mentra/src/compaction.rs:725-744 | the kept turns are the newest without a gap, within budget unless a single turn, and no fewer than the budget allows |
| `Compaction.CompactionKeepsOriginals` | mentra/src/compaction.rs:423-483 | survivors are verbatim originals, none twice, around one summary; replaced plus preserved is the original length |
| `Compaction.CountsAddUp` | mentra/src/compaction.rs:423-483 | the reported counts account for every entry of the result when the original has no duplicate entries |
| `Compaction.CompactionKeepsPairs` | mentra/src/compaction.rs:343-451 | if every tool exchange directly follows an assistant turn, that still holds afterwards |
| `Compaction.CompactionCarriesFiles` | mentra/src/compaction.rs:430-451 | the newest file list is the old one followed by what the summarised prefix adds |
| `Compaction.SummaryTailAddsNothing` | mentra/src/compaction.rs:702-774 | when the kept tail is itself an old summary, the list it carries is already complete |
| `Compaction.CompactionKeepsOrder` | mentra/src/compaction.rs:343-451 | afterwards every tool exchange lies after every summary |
| `Compaction.RunsLoseNoFile` | mentra/src/compaction.rs:321-485 | over every run the list has no repeats and only grows at its end, and exactly the paths ever mentioned are still known |
| `Compaction.NoPathIsLost` | mentra/src/compaction.rs:40-102 | over every run a path is in the newest summary's list or a remaining tool exchange's message if and only if some tool exchange ever mentioned it |
| `Compaction.AccumulateFiles` | mentra/src/compaction.rs:714-723 | the loop computes the accumulated list |
| `Compaction.ExtractContextFiles` | mentra/src/compaction.rs:40-102 | the extracted files are the distinct paths of the tool exchanges in order of first mention |
| `Compaction.SelectRecentUserTurns` | mentra/src/compaction.rs:725-744 | the backward loop and its reversal compute the kept turns |
| `Compaction.CompactTranscript` | mentra/src/compaction.rs:321-485 | the assembly computes the new path and counts, or reports that there is nothing to summarise |
| `Salvage.CompactionSelects` | mentra/src/compaction.rs:420-485 | the outcome by position: newest turns without a gap within the budget and no fewer, exactly the delegation results with fewer than the limit after them, in order and verbatim, the summary in the given prose, the tail; counts are of what was kept |
| `Salvage.LastEntryStays` | mentra/src/compaction.rs:326-351 | nothing is compacted exactly when the transcript is empty or one entry that is no tool exchange; the last entry comes through untouched unless the whole transcript is one exchange |
| `Salvage.KeptTurnsAre` | mentra/src/compaction.rs:725-744 | the kept turns are those at the last positions of user turns, and the next older one is left out only for the budget |
| `Salvage.NewestResultsKept` | mentra/src/compaction.rs:746-759 | a delegation result is kept if and only if fewer than the limit come after it; of equal entries one |
| `ToolRegistries.GenerationsAreUnique` | mentra/src/tool.rs:816-825 | no generation stands in two slots, across all three layers |
| `ToolRegistries.ShiftKeepsLedger` | mentra/src/tool.rs:552-813 | taking generations out of their slots, and registering one more, keeps every issued generation in its own slot or handed back |
| `ToolRegistries.MoveKeepsLedger` | mentra/src/tool.rs:552-825 | so does every operation, and any other registry drawing on the shared counter |
| `ToolRegistries.RefreshKeepsLedger` | mentra/src/tool.rs:568-586 | new descriptors move no registration, generation or name |
| `ToolRegistries.RefreshTakesCurrent` | mentra/src/tool.rs:568-586 | after a refresh each slot whose handler kept its name holds the current descriptor, every other slot what it held |
| `ToolRegistries.PurgeHandsBack` | mentra/src/tool.rs:597-633 | what a global insertion displaces is exactly what stood under the name, each handler once |
| `ToolRegistries.CollectSpecs` | mentra/src/tool.rs:588-595 | the cached list holds the global layer's specs, each once |
| `ToolRegistries.Purge` | mentra/src/tool.rs:608-628 | one scoped layer loses the name everywhere and nothing else; emptied owners go |
| `ToolRegistries.ToolRegistry.constructor` | mentra/src/tool.rs:361-368 | an empty registry with an empty ledger |
| `ToolRegistries.ToolRegistry.DetachTool` | mentra/src/tool.rs:552-556 | removes only the global registration and hands its handler back for the first time |
| `ToolRegistries.ToolRegistry.InsertPrepared` | mentra/src/tool.rs:597-633 | takes the global slot, empties every other slot of the name, hands back exactly their handlers |
| `ToolRegistries.ToolRegistry.TryInsertPrepared` | mentra/src/tool.rs:635-658 | refused exactly when the name is taken in any layer, changing nothing and needing no generation; otherwise displaces nothing |
| `ToolRegistries.ToolRegistry.InsertAgentPrepared` | mentra/src/tool.rs:714-743 | replaces at most the agent's own registration and hands that handler back |
| `ToolRegistries.ToolRegistry.InsertAudiencePrepared` | mentra/src/tool.rs:682-712 | the same for an audience |
| `ToolRegistries.ToolRegistry.TryInsertAudiencePrepared` | mentra/src/tool.rs:660-680 | refused exactly when the name is taken globally or by that audience, changing nothing and needing no generation |
| `ToolRegistries.ToolRegistry.DetachAgentRegistration` | mentra/src/tool.rs:759-776 | removes the slot's registration only if it is the generation given |
| `ToolRegistries.ToolRegistry.DetachAudienceRegistration` | mentra/src/tool.rs:796-813 | the same for an audience |
| `ToolRegistries.ToolRegistry.RefreshDescriptors` | mentra/src/tool.rs:568-595 | refreshes each slot whose handler kept its name, keeps the cached specs right, and says whether anything changed |
| `ToolRegistries.ToolGuard.Unregister` | mentra/src/tool.rs:246-261 | a guard acts at most once; it empties its slot if and only if that holds its generation, books exactly that generation as handed back, and changes nothing else |
| `ToolRegistries.RunKeepsLedger` | mentra/src/tool.rs:552-825 | over every run the ledger balances, no issued generation is forgotten or reissued, and none handed back returns |
| `ToolRegistries.HandedBackExactlyOnce` | mentra/src/tool.rs:552-813 | over every run the handlers handed back are those of the generations taken out, each exactly once |
| `ToolRegistries.GuardRemovesOnlyItsOwn` | mentra/src/tool.rs:301-316 | in every run, dropping the guard of an earlier registration removes it if and only if it was not handed back before, hands back exactly the handler registered, and is otherwise inert |
| `ToolRegistries.PerformAll` | mentra/src/tool.rs:552-813 | whatever sequence of operations the program performs, guard drops included, is a run |
| `ToolVisibility.RunsAreKeyed` | mentra/src/tool.rs:597-743 | in every registry a run can reach, what stands in a slot bears the slot's name, so the roster results apply to all of them |
| `ToolVisibility.ResolvesToNearest` | mentra/src/tool.rs:465-522 | in every run a name resolves to the registration not handed back that is nearest to the caller: its agent's own, then its audience's, then the global one; to none exactly when none is in reach |
| `ToolVisibility.AgentShadows` | mentra/src/tool.rs:465-743 | a tool registered for an agent is what that agent reaches under any audience; other agents and other names resolve as before, a name missing to them becoming hidden |
| `ToolVisibility.AudienceShadows` | mentra/src/tool.rs:465-712 | a tool registered for an audience is what its members reach unless their agent holds the name; everyone else resolves as before |
| `ToolVisibility.GlobalReachesAll` | mentra/src/tool.rs:465-658 | a tool registered globally is what everyone reaches; other names resolve as before |
| `ToolVisibility.DetachTakesGlobal` | mentra/src/tool.rs:465-556 | detaching a global tool takes it from exactly those who reached it |
| `ToolVisibility.DropUncovers` | mentra/src/tool.rs:465-813 | dropping a guard whose registration stands uncovers what lies beneath it, for its agent or audience only; any other drop changes nothing |
| `ToolVisibility.RegistrationLeavesNoTrace` | mentra/src/tool.rs:465-813 | registering in an empty slot and dropping the guard leaves every resolution as it was |
| `ToolVisibility.LeqIsDictionary` | mentra/src/tool.rs:483-505 | the roster's name order is that of a dictionary |
| `ToolVisibility.VisibleRegistrations` | mentra/src/tool.rs:483-505 | the roster lists exactly what call resolution finds, the same registration, once a name, in name order |
| `ToolVisibility.OfferedTools` | mentra/src/agent.rs:629-647 | exactly the roster's entries the gate and profile let through, in name order, and their specs |
| `ToolVisibility.OfferedIsCallable` | mentra/src/agent.rs:629-729 | with no gate or a working gate a registration is offered if and only if calling its name reaches it |
| `ToolVisibility.ShapingGateOffersItsOwn` | mentra/src/agent.rs:629-694 | a shaping gate offers its own registration exactly while that is the visible one, and it stays callable |
| `ToolVisibility.ShapingGateOffersAtMostOne` | mentra/src/agent.rs:629-647 | a shaping gate offers at most one registration |
| `ToolVisibility.ResolutionIsTotal` | mentra/src/agent.rs:656-677 | a name is missing exactly when it is allowed and no layer of any owner holds it; otherwise it is visible or hidden |
| `ToolVisibility.OpenViewWithholdsNothing` | mentra/src/agent.rs:656-729 | a view without gate, hidden names or profile, of a paging teammate, withholds nothing |
| `ToolVisibility.RestrictionsWithhold` | mentra/src/agent.rs:679-729 | hiding a name, an allow list, not being a teammate and having no paging each withhold exactly what they name, except from the gate |
| `ToolVisibility.GateClaimsItsName` | mentra/src/agent.rs:656-711 | a terminal tool's name reaches its registration whatever else is withheld, or nothing; other names resolve as without it |
| `EventBus.KeepsLocks` | mentra/src/agent.rs:175-237 | each lock is held by exactly the thread whose position says so |
| `EventBus.StepKeepsInv` | mentra/src/agent.rs:175-237 | every step of every thread keeps locks, ownership of taps and the logs right |
| `EventBus.RunKeepsInv` | mentra/src/agent.rs:175-237 | so does every interleaving |
| `EventBus.TapSeesContiguousStretch` | mentra/src/agent.rs:175-211 | at every moment a tap's calls are a contiguous stretch of the broadcast order from its registration to its removal |
| `EventBus.EverySendIsBroadcastOnce` | mentra/src/agent.rs:175-195 | for each thread the events given to its sends are those it has broadcast, in that order, then the one still being sent |
| `EventBus.QuietAfterDrop` | mentra/src/agent.rs:214-237 | once a guard's drop has returned no call of its tap starts or is still running |
| `EventBus.NoDeadlock` | mentra/src/agent.rs:175-237 | while some thread is inside the bus, some thread inside it can take its next step |
| `Frontmatter.CutFindsFirst` | mentra/src/frontmatter.rs:64-84 | lines that are no delimiter, then a delimiter line, then any body, split there |
| `Frontmatter.UncutIffNoDelimiter` | mentra/src/frontmatter.rs:64-88 | a block is unterminated exactly when no line is a delimiter |
| `Frontmatter.CutPartitions` | mentra/src/frontmatter.rs:64-84 | block, closing line and body make up the text, and the closing line is the first delimiter |
| `Frontmatter.OpeningSpellings` | mentra/src/frontmatter.rs:52-88 | a byte-order mark and the spelling of the opening line's end make no difference |
| `Frontmatter.NoOpening` | mentra/src/frontmatter.rs:55-63 | text that does not open with a delimiter line is all body |
| `Frontmatter.ParsedKeysAreDistinct` | mentra/src/frontmatter.rs:199-257 | whatever parses has valid keys, none given twice |
| `Frontmatter.Hex4Reads` | mentra/src/frontmatter.rs:308-319 | four printed hexadecimal digits read back as the number |
| `Frontmatter.UnquoteChar` | mentra/src/frontmatter.rs:294-336 | every quoted character reads back as itself |
| `Frontmatter.ReadsBack` | mentra/src/frontmatter.rs:375-391 | any value at all, quoted, is read as that text |
| `Frontmatter.EntryLineParses` | mentra/src/frontmatter.rs:199-290 | a printed entry parses to that entry after any entries without its key |
| `Frontmatter.PrintedReadsBack` | mentra/src/frontmatter.rs:52-391 | printing distinct valid keys with any values above any body, then scanning and parsing, gives back exactly those |
| `Frontmatter.ScanFile` | mentra/src/frontmatter.rs:52-88 | the line loop computes the split, with byte-order mark and both line endings |
| `Frontmatter.ReadDoubleQuoted` | mentra/src/frontmatter.rs:294-336 | the cursor loop reads a double-quoted value, every escape and every error |
| `Frontmatter.ReadSingleQuoted` | mentra/src/frontmatter.rs:339-358 | the search loop reads a single-quoted value, doubled quotes and every error |
| `Frontmatter.QuotedThen` | mentra/src/frontmatter.rs:294-371 | any value, quoted, reads as that text if only blanks or a comment follow the closing quote, and is refused otherwise |
| `Frontmatter.SingleQuotedThen` | mentra/src/frontmatter.rs:339-371 | the same between single quotes, every quote in the value doubled |
| `Frontmatter.PlainReadsBack` | mentra/src/frontmatter.rs:260-290 | without quotes a value is refused exactly for how it begins; plain text that is no keyword and holds no comment stands for itself |
| `Frontmatter.CommentIsCut` | mentra/src/frontmatter.rs:279-283 | plain text followed by a comment reads as the text alone does, trimmed |
| `Frontmatter.KeywordsMean` | mentra/src/frontmatter.rs:260-290 | as the value of a line, unquoted true and false are truth values, and null, a tilde and nothing are null |
| `Frontmatter.TrailingMeans` | mentra/src/frontmatter.rs:361-371 | what may follow a closing quote is blanks to the end, or blanks and a comment |
| `Frontmatter.EscapesMean` | mentra/src/frontmatter.rs:299-326 | each one-letter escape stands for its character, and every other one is refused |
| `Frontmatter.UnicodeEscapeMeans` | mentra/src/frontmatter.rs:308-319 | four hexadecimal digits name their character, and half of a surrogate pair is refused |
| `Frontmatter.IdleLine` | mentra/src/frontmatter.rs:202-206 | blank lines and comments say nothing, however far indented |
| `Frontmatter.IndentedLine` | mentra/src/frontmatter.rs:207-214 | any other indented line is refused |
| `Frontmatter.ListLine` | mentra/src/frontmatter.rs:216-221 | a list item is refused |
| `Frontmatter.LineWithoutColon` | mentra/src/frontmatter.rs:222-227 | a line without a colon is refused |
| `Frontmatter.LineWithBadKey` | mentra/src/frontmatter.rs:228-238 | what stands before the first colon must be a key |
| `Frontmatter.LineWithoutSpace` | mentra/src/frontmatter.rs:239-246 | a value must not touch the colon |
| `Frontmatter.WrittenLineParses` | mentra/src/frontmatter.rs:199-257 | a valid key, a colon, and after blanks any value: the line gives that key the value as read, passes on the error in reading it, and is refused if the key was given before |
| `Frontmatter.ParseBlock` | mentra/src/frontmatter.rs:199-257 | the entries in order, or the first error with its line number |
| `Frontmatter.QuoteValue` | mentra/src/frontmatter.rs:375-391 | the loop prints the quoted value |

## Left out

- Transport, credentials, spawned tasks, channels and timeouts: a stream is a finite sequence of byte chunks that then closes or breaks, and a failed call is its failure kind.
- Decoding one frame (UTF-8, `data:` lines, JSON): a parameter; `ReadFrame` starts from the decoded payload.
- A receiver dropped in the middle of a stream: sends always succeed here.
- The Anthropic, Responses and Gemini stream readers: other code; the chat-completions splitter is the one whose chunking is independent of line endings.
- The ring's observer events and the classification of errors into failure kinds: the kind is the operation's answer.
- "Probation is cleared only by success" is not claimed: drifting back from a probationary member clears it when the ring later returns there.
- Branching after a compaction: kept entries keep their old links, so a compacted path is not a tree in the sense of `Transcript`; the archive a compaction drops is not modelled either.
- Compaction's token totals and diagnostics, and everything it extracts besides file paths: counts and prose nothing else depends on.
- The transcript's projections and leaf lookup: one-line reads.
- ToolRegistries.Recapture: the nested in-place loops over the three layers are map comprehensions here, so their order is not captured; no iteration depends on another.
- ToolRegistries.ToolRegistry.InsertAudiencePrepared: does not model the debug-only assertion that nothing was displaced; a release build hands the displaced handler back as here.
- The generation counter is a field of the registry here; in the program all registries share one, which the operation `Elsewhere` stands for in runs. It panics at the last 64-bit value, so an operation that needs a generation requires that one is left.
- Cloning a registry: runs are of one registry that is never cloned, since a clone lets one generation stand in two registries.
- ToolRegistries.ToolGuard.Unregister: one class stands for the agent and the audience guard, which differ only in the layer they name; a registry that is gone is a null reference.
- Poisoned locks, and callbacks that panic or call back into the bus.
- Frontmatter's `Fields` lookups and error messages.
- Hook wrappers, sessions, the runtime builder, provider definitions and request building: thin delegation that would only add easy members.
