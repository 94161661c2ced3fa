# Verified model of an LLM serving engine

A Dafny model of the parts of the engine in which many small steps have to add up to a simple
whole: text that is decoded, filtered and parsed in arbitrary chunks; requests and tokens that
cross process boundaries in both directions; a pipelined prefill; profiler traces that are
merged piece by piece; and two pieces of distributed algebra. `dafny verify dfyconfig.toml`
checks all of it.

## What is modelled

**Streaming text.** Token bundles pass through the incremental detokenizer (`Utf8`,
`Detokenizer`, `Generations`), the stop-string filter (`StopFilter`) and the Kimi K3 channel
parser (`K3Parser`, `K3Chunks`, `K3Corner`, `K3Ending`, `K3Grammar`, `K3StreamParser`). Each
stage is shown to agree with a one-shot specification for every chunking, and
`StructuredStream` composes the three. `XtmlAttributes`, `K3Printing`, `K3RoundTrip` and `K3Full`
print transcripts as XTML and read them back, streamed and in one shot. The raw path with reasoning tags and hold markers is `RawStream`,
`RawExact`, `RawLimits` and `RawServer`; `Generations` and `MessageStream` turn the result into
chat deltas and server-sent events.

`Patterns` holds the notion all of this rests on: a position of a text at which some pattern
"is still possible" (it agrees with the text as far as the text goes). Extending the text can
only rule positions out, so the first such position never moves back; it is where every
holdback computation in the source ends up. `StreamLoop` is the loop of a parser that steps until
it rests, and `XtmlText` and `Sequences` are small vocabulary.

**Delivery.** `Delivery` is a transition system over the client's outbox, the sockets, the
backend's queues and the fan-out, with aborts, hand-off, and the reports of the scheduler as the
emit loop shows them; `DeliverySafety` proves what every interleaving keeps, `DeliveryReuse` when
an id may be used again, and `DeliveryRuns` has runs that reach the exceptions. `EngineClient` and
`EngineBackend` are the classes whose methods perform the actions. `HandOff` runs the backend
loop of a decode engine (admit, fetch the KV cache, run, report, tell the source to free) and
proves what holds of the FREE messages over every run.

**Prefill pipeline.** `PrefillDriver` (the bounded in-flight loop), `PrefillRounds` (padding
and replication), `PrefillPipeline` (folding rows), `Microbatches` (cutting sequences into
fragments) and `PackingUnique` (there is only one way to do it), `PrefillStep` (all of it as one
call), `PrefillLastStage` (only the last stage is heard) and `PipelineProgress` (the stages as a
transition system).

**Traces.** `TraceStream` (chunked array decoding), `TraceIds`, `TraceCompactor`, `TraceMerger`,
and `TraceFiles` (from file texts to a file text and back).

**Algebra.** `ContextMerge` and `ContextMerger` (log-sum-exp merge over the reals),
`Redistribution` (all-to-all split tables).

## Where the code does less than one might expect

Where a natural statement is false of the code, the exact condition under which it holds is
proved, and inputs on which it fails are given.

- Feeding a text to the K3 parser in pieces is observed like feeding it at once, unless the run
  meets a think opener in the think channel behind text that has not been emitted yet; then some
  way of cutting the text shows the opener as reasoning (`K3Grammar.KimiChunkInvariance`,
  `K3Grammar.LateOpenerExample`). The comment at `dlengine/server/kimi_k3_parser.py:88-90` names
  chunk invariance as the goal without that exception.
- An unfinished header at the end of the stream is suppressed only if no white space precedes
  it; then both are shown (`K3Ending.SuppressionExactly`, `K3Ending.HeaderSuppressed`).
- The stop filter is indifferent to chunking exactly for stop strings in which no stop string
  ends properly inside another one, unless a shorter one starts there
  (`StopFilter.StopFilterExactly`, `RawExact.StopsExactly`). On the raw path, with stop strings
  and hold markers together, only stop strings and markers that hold no stop string count as
  outer strings (`RawLimits.RawExactly`).
- On the raw path stop strings and hold markers are looked for in the reasoning and in dropped
  opening tags too. Content is what follows the reasoning, up to the first stop string in it, else
  the first marker in it, if and only if that is nothing, or no stop string starts before it, and
  no marker either unless a stop string follows (`RawLimits.ContentExactly`). So a stop string in
  the reasoning loses the answer (`RawLimits.StopLosesAnswer`, `RawLimits.StopExample`). The
  markers of the Hermes, Qwen and GLM parsers include the opening tag, so one redundant opener
  does, too (`RawLimits.OpenerLosesAnswer`). A stop string behind a held marker has the held region
  shown as content (`RawLimits.HeldRegionShown`).
- A text that ends in a broken character is never flushed (`Detokenizer.IncrementalIsFullDecode`).
- A request is delivered the tokens the model has sampled for it, if and only if none of its
  reports is shown with other tokens (`DeliverySafety.DeliveredInOrder`). The emit loop falls back
  to the last token for a sequence without tokens that is not newly running, and a step of a decode
  engine that only fetches KV caches reports the tokens that the run before it has left. So the
  client gets the last token of the prompt once for every chunk of it but the last one
  (`DeliveryRuns.ChunkedPrefill`), and on a decode engine an id that is used again may show the
  prefill token twice (`DeliveryRuns.HandedOverTwice`) or tokens of the earlier request
  (`DeliveryRuns.LeftOverShown`).
- A sequence id that has been used before is delivered in order, whatever happens next, if and only
  if, when it is submitted again, no packet of the earlier use is under way, the sequence is not
  live, no ADD is under way, no ABORT is under way to a sequence held for hand-off, and, on a decode
  engine, the step before has not reported it and the last run has left no tokens for it
  (`DeliveryReuse.ResubmitExactly`). A late abort of a finished request and a held sequence alone
  do no harm. Otherwise, for instance, the empty StepOut that answers an abort reaches the new
  request as a token 0 (`DeliveryRuns.EarlyReuse`).
- A migrated sequence is freed twice exactly when it has been reported before, is missing from the
  step before the one in which it finishes, and so counts as newly running once more
  (`HandOff.AdmissionFreedOnce`, `HandOff.LateReturnIs`); the loop gets there when it is not
  scheduled while another sequence is handed over (`HandOff.LateReturnHappens`). The mark left
  behind by a sequence that finishes while newly running suppresses the FREE of a later admission
  with the same id (`HandOff.StaleMark`).
- With one round the prefill pipeline returns the workers' rows as they are. That agrees with
  folding them, for all answers, if and only if no sequence of the batch is without tokens
  (`PrefillStep.FastPathExactly`).
- A trace file is decoded the same way however it is read, if and only if no event that is reached
  is longer than one more than the size limit (`TraceStream.ReadingExactly`).
- Numeric trace ids of different ranks collide exactly when they differ by as many strides as the
  ranks (`TraceIds.NumbersCollideExactly`).

## Assumptions

- A tokenizer maps each token to bytes, and decodes the concatenated bytes as UTF-8 (section 3
  of RFC 3629), with U+FFFD for each maximal ill-formed subpart.
- A JSON decoder reads one value from the front of a text, and reads a complete object the same
  way whatever follows it (`TraceStream.SelfDelimiting`).
- The word characters of the attribute pattern are a parameter; only `=`, blank and the letters
  of the framing attributes matter.
- The scheduler reports distinct live sequences, a finished one with some token to show, a
  handed-off one with the token it sampled. On a decode engine it schedules a sequence first, and
  once, in a batch that fetches KV caches (`Delivery.Reports`, `HandOff.Schedules`), and it reports
  only what it has scheduled, with the source engine it was admitted with (`HandOff.Carries`).
- `DeliveryReuse.ResubmitExactly` speaks of continuations in which every other step that reports
  the sequence samples for it (`DeliveryReuse.OrderlyStep`).
- A worker's answer to a round depends on the rounds submitted up to it, not on when it is
  awaited (`PrefillDriver.Executor`), and every worker answers every round
  (`PrefillStep.Complete`).
- Where the think channel is open, `RawLimits.RawExactly` needs some character that occurs in no
  stop string, marker or tag.
- The exponential is any positive function that turns sums into products.

## Model

| member | source | states |
|---|---|---|
| `Patterns.ScanGrows` | dlengine/server/kimi_k3_parser.py:33-41 | text released before a partial match stays ruled out as the start of any pattern, whatever text follows, and the release point never moves back |
| `Patterns.HoldbackIsScan` | dlengine/server/openai_server.py:130-145 | when nothing is found, withholding the longest suffix that starts a pattern releases exactly the text in which no pattern can begin any more |
| `Patterns.FirstFoundIsLocate` | dlengine/server/kimi_k3_parser.py:82-86 | for markers that cannot overlap, taking the least position found is the first position at which any marker is still possible |
| `K3StreamParser.Overlap` | dlengine/server/kimi_k3_parser.py:33-41 | the loop returns the longest suffix of the text that is a proper prefix of a marker |
| `K3StreamParser.FirstFound` | dlengine/server/kimi_k3_parser.py:82-86 | the least (position, marker) pair: a marker stands there and none stands before; nothing exactly when no marker occurs |
| `K3StreamParser.PlainEnd` | dlengine/server/kimi_k3_parser.py:82-97 | search and holdback together find where plain text ends, as the specification `Locate` says |
| `K3StreamParser.KimiK3StreamParser.constructor` | dlengine/server/kimi_k3_parser.py:23-31 | the initial state, in think or before any channel |
| `K3StreamParser.KimiK3StreamParser.Text` | dlengine/server/kimi_k3_parser.py:43-54 | reasoning, dropped white space or content per state; plain text opens the response |
| `K3StreamParser.KimiK3StreamParser.Transitions` | dlengine/server/kimi_k3_parser.py:56-78 | the markers of the current state are those of the specification `Active`, which cannot overlap each other; `K3RoundTrip.MarkersAre` says which they are |
| `K3StreamParser.KimiK3StreamParser.ChannelStep` | dlengine/server/kimi_k3_parser.py:80-103 | one channel iteration is the transition function's step on the object's state |
| `K3StreamParser.KimiK3StreamParser.ArgumentStep` | dlengine/server/kimi_k3_parser.py:105-128 | one argument iteration is the transition function's step |
| `K3StreamParser.KimiK3StreamParser.ContainerStep` | dlengine/server/kimi_k3_parser.py:130-179 | one container iteration is the transition function's step |
| `K3StreamParser.KimiK3StreamParser.Feed` | dlengine/server/kimi_k3_parser.py:181-197 | the loop runs the transition function to rest, and terminates |
| `K3StreamParser.KimiK3StreamParser.Finish` | dlengine/server/kimi_k3_parser.py:199-210 | what is shown of the pending text at the end, and the final state |
| `K3Chunks.FeedContinues` | dlengine/server/kimi_k3_parser.py:181-197 | feeding more text after the loop has come to rest continues the loop on the longer text, with the same observed output |
| `K3Chunks.ChunkInvariance` | dlengine/server/kimi_k3_parser.py:33-210 | reasoning characters, content characters and calls come out the same and in the same order however the text is cut, unless the run meets a late opener |
| `K3Corner.ChunkInvarianceExactly` | dlengine/server/kimi_k3_parser.py:56-103 | for every text: all cuttings are observed alike if and only if the run on it does not meet a late think opener |
| `K3Ending.SuppressionExactly` | dlengine/server/kimi_k3_parser.py:199-210 | for every text, however it is fed, in every channel: what is left at the end is the start of an active marker behind white space, and it is suppressed if and only if it has the two characters tested and no white space in front; otherwise all of it is shown |
| `K3Ending.HeaderSuppressed` | dlengine/server/kimi_k3_parser.py:96-103 | outside the channels the start of any active marker, fed in any pieces, is held to the end with the white space in front, and nothing is shown before |
| `K3Grammar.KimiFramed` | dlengine/server/tool_parser.py:381-388 | every marker of the real vocabulary starts with the two characters that are tested |
| `K3Grammar.KimiChunkInvariance` | dlengine/server/tool_parser.py:381-388 | the real vocabulary is well formed, and the exact condition for chunk invariance holds for it |
| `K3Grammar.LateOpenerFamily` | dlengine/server/kimi_k3_parser.py:63-66 | any prose followed by a redundant opener in an open think channel meets the exception |
| `K3Grammar.LateOpenerExample` | dlengine/server/kimi_k3_parser.py:63-66 | one letter and the opener are observed differently in one piece and in two |
| `XtmlAttributes.EscapeRoundTrip` | dlengine/server/tool_parser.py:394-399 | undoing quotes first and ampersands second inverts escaping, for every string |
| `XtmlAttributes.OrderMatters` | dlengine/server/tool_parser.py:397-397 | the other order would not: a value that spells an escaped quote comes back changed |
| `XtmlAttributes.AttributeRead` | dlengine/server/tool_parser.py:392-399 | a printed attribute at the front of a header is read back as its key and value, whatever follows |
| `K3Printing.PutIsUpdate` | dlengine/server/kimi_k3_parser.py:116-125 | arguments are a dictionary in insertion order: the last value of a key counts, other keys keep theirs, and a repeated key keeps its place |
| `K3Printing.CallsRead` | dlengine/server/kimi_k3_parser.py:105-179 | in the tools container printed calls come out one by one with their arguments: a value is to be decoded if it has a type other than string, and is a string if it has no type; an empty key is ignored; a call without a name, or one that is not closed before the next, is not shown; text and elements of unknown names in between are passed over |
| `K3RoundTrip.MarkersAre` | dlengine/server/kimi_k3_parser.py:56-78 | in the think channel the markers are both ends of the message, the tools opener, the think closer, the response opener and, before anything was said, the think opener; in the response its closer in place of the last three; outside, all seven |
| `K3RoundTrip.AnswerAlone` | dlengine/server/kimi_k3_parser.py:69-103 | from the start, a response in its channel, alone, comes out as exactly its text, however it is cut |
| `K3RoundTrip.RoundTrip` | dlengine/server/kimi_k3_parser.py:43-210 | a printed transcript is read back, in order, however it is cut into feeds: any sequence of thoughts, answers, plain text without a marker, tool containers and stray closers, each closed or left open for what follows, with white space between them; from the start or from an open thought; ended by the close of the message, its end mark, or the end of the input, anywhere up to the middle of an argument |
| `K3Full.FullRoundTrip` | dlengine/server/tool_parser.py:406-423 | `parse_full` returns all thoughts, all answers and all calls of a printed transcript, if it takes the think channel to be open as it was |
| `K3Full.StartRecognised` | dlengine/server/tool_parser.py:406-418 | it does so if the open thought is closed before anything is opened, or the text opens a channel first, or never closes a thought |
| `K3Full.KimiRoundTrip` | dlengine/server/tool_parser.py:378-423 | both round trips for the real vocabulary and attribute pattern |
| `Utf8.DecodeSplits` | dlengine/server/openai_server.py:543-547 | across a character boundary decoding distributes over concatenation |
| `Utf8.IncompleteEndsBroken` | dlengine/server/openai_server.py:543-546 | bytes that end inside a character decode to a text that ends in U+FFFD |
| `Utf8.RoundTrip` | dlengine/server/openai_server.py:543-547 | encoding and decoding gives every text back |
| `Detokenizer.AdvanceKeeps` | dlengine/server/openai_server.py:548-564 | both offsets stay on character boundaries, the delta continues the decoded text, and everything is read exactly when the text does not end in a broken character |
| `Detokenizer.IncrementalIsFullDecode` | dlengine/server/openai_server.py:534-564 | for every bundling the deltas make up a prefix of the full decode, and all of it if and only if that does not end in U+FFFD |
| `Detokenizer.WellFormedTextComesOut` | dlengine/server/openai_server.py:534-564 | tokens that spell a text not ending in U+FFFD give that text, however bundled |
| `Generations.Generation.Extend` | dlengine/server/openai_server.py:627-630 | accepted tokens never cross the request limit |
| `Generations.Generation.IncrementalDetokenize` | dlengine/server/openai_server.py:548-564 | offsets and delta are those of the specification `Advance`, and stay within the token list |
| `Generations.Generation.ApplyParsedDelta` | dlengine/server/openai_server.py:599-612 | yielded text, channel, accumulated parts, reasoning and calls for each kind of delta |
| `Generations.TakenWithinLimit` | dlengine/server/openai_server.py:627-630 | the accepted bundles together are the first tokens of the queue up to the limit, for every bundling |
| `Generations.CallsStreamedOnce` | dlengine/server/openai_server.py:1207-1216 | no call is streamed twice or skipped, and the k-th call carries index k |
| `Generations.StreamChat` | dlengine/server/openai_server.py:1190-1282 | one chunk per yield that brings text or, with tools, new calls; then, with tools, one for the reasoning and calls the final parse has in addition; the client collects as content exactly the text of the yields that are not reasoning, and as reasoning that of the others, or what the final parse found if there were none; and the finish reason |
| `Generations.ChatStreamsOnce` | dlengine/server/openai_server.py:1202-1257 | behind a structured stream the final parse has neither reasoning nor calls left to send: the client collects the text of the reasoning deltas, that of the content deltas, and the calls, numbered from 0 |
| `StopFilter.EarliestStop` | dlengine/server/openai_server.py:116-127 | the loop returns the least position at which a stop string stands |
| `StopFilter.PartialStopHoldback` | dlengine/server/openai_server.py:130-145 | the longest suffix of the text that is a proper prefix of a stop string |
| `StopFilter.Release` | dlengine/server/openai_server.py:631-646 | what passes, what is held back and whether the stream stops, for one delta |
| `StopFilter.EmittedIsCleanPrefix` | dlengine/server/openai_server.py:616-647 | for every chunking the emitted text is a prefix of the text with no complete stop string, and all of it exactly when the filter did not stop |
| `StopFilter.NeverPassesAStop` | dlengine/server/openai_server.py:130-145 | no stop string that completes later, whatever follows, starts inside what has been emitted |
| `StopFilter.EmittedIsCut` | dlengine/server/openai_server.py:116-145 | for chunk safe stop strings every chunking emits exactly the text before the first occurrence, and stops exactly when there is one |
| `StopFilter.StopFilterExactly` | dlengine/server/openai_server.py:116-145 | that holds for every text and chunking if and only if the stop strings are chunk safe |
| `StopFilter.UnsafeStopsDiffer` | dlengine/server/openai_server.py:116-145 | otherwise a text and a chunking that emit something else |
| `StopFilter.EqualLengthIsSafe` | dlengine/server/openai_server.py:116-145 | stop strings of one length are chunk safe |
| `StructuredStream.StreamStructuredText` | dlengine/server/openai_server.py:614-654 | the yields, error, abort and accepted tokens are those of the specification `Stream`; content parts, reasoning, calls and channel of the generation are what its deltas leave behind; it finishes on length if and only if no stop string was met and the limit is reached |
| `StructuredStream.LengthExactly` | dlengine/server/openai_server.py:627-652 | for every bundling: the stream is stopped if and only if the decoded text contains a stop string, and finishes on length if and only if it contains none and the tokens reach the limit |
| `StructuredStream.GenerationIsFullParse` | dlengine/server/openai_server.py:566-576 | for every bundling, what `parse_generation` returns without parsing again is what `parse_full` finds in the decoded text cut before the first stop string, if it takes the think channel to be open as it was |
| `StructuredStream.StreamIsPipeline` | dlengine/server/openai_server.py:619-649 | the interleaved loop shows what detokenizer, filter and parser show when each runs on all of the output of the one before |
| `StructuredStream.EndToEnd` | dlengine/server/openai_server.py:614-654 | for every bundling, with chunk safe stop strings or none that occurs, the stream shows exactly the one-shot parse of the decoded text cut before the first stop string |
| `StructuredStream.MessageReachesClient` | dlengine/server/openai_server.py:614-654 | a printed transcript in which no stop string occurs, cut into tokens and bundles in any way, reaches the client whole |
| `StructuredStream.FailsExactly` | dlengine/server/openai_server.py:620-646 | the stream raises an error exactly when it reads an error item before a stop string, after showing what the text before it makes the parser show |
| `RawStream.SkipRedundantThinkOpeners` | dlengine/server/openai_server.py:148-159 | the offset behind all leading tags, and whether the rest may still become one |
| `RawStream.SkipStable` | dlengine/server/openai_server.py:148-159 | once no further tag can follow, more text changes neither answer |
| `RawStream.SafeStays` | dlengine/server/openai_server.py:765-769 | what is safe to release stays so, and no pattern that completes later starts in it |
| `RawExact.RawIsSplit` | dlengine/server/openai_server.py:693-784 | for every chunking reasoning is the text behind leading tags up to the closing tag, and content the rest up to the first stop string, else the first hold marker |
| `RawExact.StopInReasoning` | dlengine/server/openai_server.py:744-752 | a stop string that starts before the closing tag has been passed leaves no content |
| `RawLimits.ContentExactly` | dlengine/server/openai_server.py:744-769 | for every chunking, content is what follows the reasoning up to the first stop string, else marker, in it, if and only if that is empty, or no stop string starts before it, and no marker either unless there is a stop string; otherwise there is no content |
| `RawLimits.StopsInReasoning` | dlengine/server/openai_server.py:744-752 | with stop strings alone: if and only if that is empty or no stop string starts before it |
| `RawLimits.StopLosesAnswer` | dlengine/server/openai_server.py:744-752 | a reasoning that is a stop string of one character loses every answer in which it does not occur, for every chunking |
| `RawLimits.StopExample` | dlengine/server/openai_server.py:744-752 | one such text |
| `RawExact.RawIsFilter` | dlengine/server/openai_server.py:744-783 | without markers and reasoning, for every chunking the content is what the stop filter of the structured path emits |
| `RawExact.StopsExactly` | dlengine/server/openai_server.py:744-783 | then content is always a prefix of the text without a complete stop string, and it is exactly the text before the first one for every chunking if and only if the stop strings are chunk safe |
| `RawLimits.RawExactly` | dlengine/server/openai_server.py:693-784 | reasoning and content are the split of the text for every chunking if and only if the closing tag of an open think channel holds a stop string, or the stop strings are chunk safe and either that tag holds a marker or the markers are safe together with the stop strings |
| `RawLimits.MarkersExactly` | dlengine/server/openai_server.py:753-769 | without stop strings and reasoning, content is the text before the first hold marker for every chunking if and only if the markers are chunk safe |
| `RawLimits.HeldRegionShown` | dlengine/server/openai_server.py:744-769 | a stop string that turns up behind a held marker has the held region shown as content |
| `RawLimits.MarkersInReasoning` | dlengine/server/openai_server.py:753-769 | with hold markers alone: content is the text behind the reasoning up to the first marker in it if and only if that is empty or no marker starts before it |
| `RawLimits.OpenerLosesAnswer` | dlengine/server/tool_parser.py:266-266 | with the opening tag among the markers, one redundant opener leaves no content whatever follows |
| `RawServer.TakeDelta` | dlengine/server/openai_server.py:714-769 | one delta of text: the new state, and yields that carry exactly what each channel gained |
| `RawServer.StreamTextRaw` | dlengine/server/openai_server.py:656-790 | channels, the generation's channel flag, accepted tokens, abort, error and finish reason of the generator are those of the specification |
| `RawServer.RawEndToEnd` | dlengine/server/openai_server.py:656-790 | for every bundling the two channels carry the split of the decoded text |
| `MessageStream.EventStream` | dlengine/server/anthropic_api.py:343-478 | every run without an error is accepted by the event grammar, carries exactly the visible text, and tells a client that listens exactly the calls, by name and arguments and in order, and one stop reason: `tool_use` if and only if there are calls, `max_tokens` if and only if there are none and the generation ended on length; a run with an error breaks off with it, without calls or reason |
| `MessageStream.StreamTexts` | dlengine/server/anthropic_api.py:361-397 | one text block, opened by the first visible delta, with deltas only inside it |
| `MessageStream.CloseText` | dlengine/server/anthropic_api.py:412-428 | the text block is closed; without text and calls an empty one is made |
| `MessageStream.WriteTools` | dlengine/server/anthropic_api.py:430-460 | one complete block per call, numbered on, from which a client hears exactly the given calls |
| `MessageStream.ToolsRun` | dlengine/server/anthropic_api.py:430-460 | the acceptor takes the calls' blocks from any number of finished blocks on, and counts them |
| `MessageStream.ToolsHeard` | dlengine/server/anthropic_api.py:430-460 | whatever a client has heard before, from the calls' blocks it hears each name with its arguments, in order |
| `DeliverySafety.RunKeeps` | dlengine/server/engine_server.py:244-271 | two invariants over every sequence's share of all queues and channels hold in every state of every run, in either mode: what the backend reports is conserved, and it is what was sampled unless a report has invented tokens |
| `DeliverySafety.DeliveredInOrder` | dlengine/server/engine_server.py:48-61 | over every run, ids used again included, a request queue holds the prefill token, then what the backend reports, in order, none lost or repeated; it ends at most once and nothing follows; and, unless the client has aborted it, these are the tokens sampled if and only if no report of it shows tokens that were not |
| `DeliverySafety.AbortsAreSafe` | dlengine/server/zmq_engine_client.py:144-157 | over every run an abort never comes before its request, an empty StepOut is never under way to an active request, and once no message is under way nothing aborted is left in the engine |
| `DeliverySafety.PrefillAnswered` | dlengine/server/openai_server.py:510-532 | over every run waiting for a prefill ends exactly when its request does, with the token sampled last, or, finished on this engine, with all tokens sampled, if and only if no report was invented |
| `DeliveryReuse.ResubmitExactly` | dlengine/server/openai_server.py:482-508 | in every state of every run, a request with an id used before is delivered the tokens sampled for it, in order, whatever happens next, if and only if the id is clear and, on a decode engine, not stale when it is submitted |
| `DeliveryReuse.StaleFetch` | rust/src/scheduler/mod.rs:148-161 | clear but stale: a run in which fetching its KV cache shows tokens nobody has sampled |
| `DeliveryReuse.StalePacket` | dlengine/server/zmq_engine_client.py:263-319 | not clear because of a packet under way: a run in which it reaches the later request |
| `DeliveryReuse.StaleRequest` | dlengine/server/engine_server.py:244-271 | because of an ADD under way: a run in which it is taken for the later request |
| `DeliveryReuse.StaleSequence` | dlengine/server/engine_server.py:345-397 | because the earlier sequence is live: a run in which its tokens reach the later request |
| `DeliveryReuse.StaleAbort` | dlengine/server/engine_server.py:144-167 | because an ABORT is under way to a held sequence: a run in which its answer ends the later request |
| `DeliveryRuns.EarlyReuse` | dlengine/server/zmq_engine_client.py:267-296 | a whole run from the start: the answer to an abort ends the request that uses the id again, with a token nobody sampled |
| `DeliveryRuns.ChunkedPrefill` | rust/src/scheduler/lifecycle.rs:114-146 | a whole run: a prompt chunk that is not the last one gives the client the sequence's last token as if it had been sampled |
| `DeliveryRuns.HandedOverTwice` | dlengine/server/engine_server.py:48-61 | a whole run on a decode engine: an id used again in the step after its KV cache was fetched is clear, and shows its prefill token twice |
| `DeliveryRuns.LeftOverShown` | rust/src/scheduler/mod.rs:148-155 | a whole run on a decode engine: an id used again after its request has finished shows the last tokens of the earlier request |
| `EngineClient.ZmqEngineWorker.SubmitRequest` | dlengine/server/zmq_engine_client.py:121-135 | the request is active and its ADD queued behind everything else |
| `EngineClient.ZmqEngineWorker.SubmitMigrated` | dlengine/server/openai_server.py:482-508 | the prefill token is in the queue once, before any packet can be |
| `EngineClient.ZmqEngineWorker.AbortRequest` | dlengine/server/zmq_engine_client.py:144-157 | the request ends at once, and the engine is told in any case |
| `EngineClient.ZmqEngineWorker.HandleStepout` | dlengine/server/zmq_engine_client.py:267-296 | tokens, or the fallback token, and the end mark for a finished one; nothing for a request that is not active |
| `EngineClient.ZmqEngineWorker.HandleMigration` | dlengine/server/zmq_engine_client.py:298-319 | the hand-off and the end mark, once |
| `EngineClient.ZmqEngineWorker.HandlePacketOn` | dlengine/server/zmq_engine_client.py:263-319 | handling a packet on the objects is the receive action of the transition system |
| `EngineClient.ZmqEngineWorker.AbortOn` | dlengine/server/zmq_engine_client.py:144-157 | aborting is the abort action |
| `EngineClient.ZmqEngineWorker.SubmitOn` | dlengine/server/zmq_engine_client.py:121-135 | submitting, whether the id is clear or not, is the submit action |
| `EngineClient.Request.AwaitMigration` | dlengine/server/openai_server.py:510-532 | the loop over the queue, error items included, answers as the specification `Await` |
| `HandOff.HandOverIsSilent` | dlengine/server/engine_server.py:48-61 | a sequence that is handed over puts nothing on the results queue, although its last token is known, if and only if no tokens are left over for it and it is newly running |
| `EngineBackend.BackendService.HandleAbort` | dlengine/server/engine_server.py:144-167 | one empty finished StepOut per sequence found, and its mark dropped |
| `EngineBackend.BackendService.EmitStep` | dlengine/server/engine_server.py:345-397 | the results queue gets the step's packets, migrations first, as in the transition system; newly running is what the running set of the step before says, and frees, marks and the new running set follow from it |
| `EngineBackend.BackendService.RunStep` | dlengine/engine/llm_engine.py:386-406 | a prefill batch on a decode engine fetches the KV cache, any other batch runs; then the reports are emitted |
| `EngineBackend.BackendService.RunStepOn` | dlengine/server/engine_server.py:337-397 | on the results queue and the running set that is the step action of the transition system |
| `EngineBackend.BackendService.HandleAbortOn` | dlengine/server/engine_server.py:144-167 | and handling an ABORT is what the transition system does with it |
| `HandOff.TakeTurn` | dlengine/server/engine_server.py:337-397 | one turn of the backend loop on the object is one turn of the specification |
| `HandOff.PassesDo` | dlengine/engine/llm_engine.py:182-220 | over every run every batch is dealt with once, in order: a decode engine fetches its prefill batches and runs the others, any other engine runs them all |
| `HandOff.FreesPerAdmission` | dlengine/server/engine_server.py:191-209 | one FREE per admission in which the sequence is newly running, however often it leaves and comes back, and a second one exactly for a late return |
| `HandOff.LateReturnIs` | rust/src/scheduler/mod.rs:158-161 | a late return in terms of the reports alone: reported, missing from the last step but one, finished in the last |
| `HandOff.LateReturnHappens` | rust/src/scheduler/schedule.rs:15-135 | a schedule the assumptions allow that makes the loop do it |
| `HandOff.NeverNew` | rust/src/scheduler/mod.rs:158-161 | an id admitted again and reported in every step from then on is never newly running, so never freed |
| `HandOff.AdmissionFreedOnce` | dlengine/server/engine_server.py:345-397 | over the turns of one admission, with other sequences interleaved in any way: at most one FREE if and only if there is no late return |
| `HandOff.StaleMark` | dlengine/server/engine_server.py:361-387 | a sequence that arrives and finishes in one step keeps its mark, which suppresses the FREE of the next admission |
| `HandOff.FreesFollowMigration` | dlengine/engine/llm_engine.py:175-222 | over every run of the loop a FREE is sent only after a migrate call for the sequence has returned, one of the same admission |
| `HandOff.FreesReachSource` | dlengine/server/engine_server.py:361-387 | over every run of the loop a FREE goes to the engine that sent the sequence, as told when it was last admitted |
| `PrefillDriver.Driver.Run` | dlengine/engine/llm_engine.py:293-321 | for every depth the rows equal those of running the rounds one at a time; rounds are submitted and collected once each, in order, with at most `depth` in flight |
| `PrefillDriver.Driver.Consume` | dlengine/engine/llm_engine.py:295-313 | one round folded into the rows of every group: group k takes the rows of worker k times tp of the slice that starts at the last stage |
| `PrefillDriver.PipelineDepth` | dlengine/engine/llm_engine.py:282-292 | what is configured, else the number of stages up to sixteen, at least one, never above the transport's slots, and an error exactly for fewer than two slots |
| `PrefillStep.RunStaticPpPrefillPipeline` | dlengine/engine/llm_engine.py:224-330 | for every depth, stage count and tensor-parallel size: every sequence with tokens gets the row its last fragment has in the answer to its round of worker k times tp of the slice of the last stage, the others none; a single round returns those answers as they are; which payload each worker gets in each round, how many rounds there are and how many in flight, and the error exactly when several rounds meet fewer than two slots |
| `PrefillLastStage.LastStageDecides` | dlengine/engine/llm_engine.py:240-313 | two executors whose answers agree from the first worker of the last stage on give the same result, whatever the other workers answer |
| `PrefillLastStage.SameSubmitted` | dlengine/engine/llm_engine.py:240-293 | the rounds submitted are the same whatever the workers answer |
| `PrefillStep.FastPathExactly` | dlengine/engine/llm_engine.py:247-251 | with one round, returning the reporters' rows as they are agrees with folding them, for every answer with a row per sequence, if and only if no sequence is without tokens |
| `PrefillPipeline.FoldAllAt` | dlengine/engine/llm_engine.py:297-313 | every group is folded on its own, from its reporter's rows and its cell's fragments |
| `PrefillPipeline.LastRowWins` | dlengine/engine/llm_engine.py:303-310 | a sequence gets the row of its last fragment and only that |
| `PrefillPipeline.FeedsFlag` | dlengine/engine/llm_engine.py:308-310 | log probabilities are reported exactly if some last row has them |
| `PrefillPipeline.FeedsTime` | dlengine/engine/llm_engine.py:311-313 | the reported time is the largest among the rounds that carried fragments of the group |
| `PrefillRounds.ReplicateAligns` | dlengine/engine/llm_engine.py:332-342 | every stage's workers line up with the same items |
| `PrefillRounds.BuildRounds` | dlengine/engine/llm_engine.py:268-280 | as many rounds as the longest cell has microbatches; in each, every stage's worker gets its cell's microbatch or the dummy |
| `Microbatches.PrefillMicrobatches` | rust/src/proto/wire.rs:204-300 | the microbatches cover every sequence in order, cut only where one ends, all but the last filled to the token limit; batches that are not cut are sent as they are, with every sequence that has tokens as one last fragment |
| `PackingUnique.PackedUnique` | rust/src/proto/wire.rs:231-298 | no other list of microbatches covers the batch that way |
| `Microbatches.RoundsNeeded` | rust/src/proto/wire.rs:231-298 | as few microbatches as the tokens need, more than one exactly if they exceed the limit |
| `Microbatches.OneLastEach` | rust/src/proto/wire.rs:231-292 | every sequence with tokens has exactly one last fragment, the others none |
| `Microbatches.SequenceRow` | dlengine/engine/llm_engine.py:295-313 | for every packing and any answers, a sequence gets exactly the row its last fragment has in its round, whatever other rounds and dummies hold |
| `PipelineProgress.StepKeeps` | dlengine/engine/llm_engine.py:232-239 | rounds pass the stages in order and never more than `depth` are in flight |
| `PipelineProgress.StepDecreases` | dlengine/engine/llm_engine.py:315-321 | every step uses up exactly one unit of the work left |
| `PipelineProgress.NeverStuck` | dlengine/engine/llm_engine.py:315-321 | while a round is missing some step is possible |
| `PipelineProgress.RunKeeps` | dlengine/engine/llm_engine.py:315-321 | every run is at most rounds times (stages plus two) steps long, and has collected every round exactly when it has taken them all |
| `TraceStream.TraceEventStream.ReadMore` | dlengine/utils/trace_merger.py:86-96 | the text ahead stays the same, and an unread chunk is moved into the buffer |
| `TraceStream.TraceEventStream.Iterate` | dlengine/utils/trace_merger.py:98-130 | events, suffix and failure are those of the specification `Iterated` on the text in the buffer and the chunks of the file |
| `TraceStream.IteratedReads` | dlengine/utils/trace_merger.py:98-130 | for every way the file is read in chunks, the events are those of decoding the whole text as far as they go, and everything is if none reached is longer than one more than the size limit |
| `TraceStream.ReadingExactly` | dlengine/utils/trace_merger.py:114-123 | every way of reading the file gives what decoding the whole text gives if and only if no event reached is longer than that |
| `TraceIds.TextsNeverCollide` | dlengine/utils/trace_merger.py:143-148 | remapped string ids are equal exactly for equal ids of equal ranks |
| `TraceIds.NumbersCollideExactly` | dlengine/utils/trace_merger.py:143-152 | numeric ids collide exactly when they differ by as many strides as the ranks; never within one stride |
| `TraceMerger.RemapKeepsApart` | dlengine/utils/trace_merger.py:151-156 | lanes of two events are equal after remapping exactly when rank and lane were |
| `TraceMerger.RemapIs` | dlengine/utils/trace_merger.py:143-169 | an event is remapped to exactly the one with its ids shifted by the stride of the rank, or suffixed, the rank behind the name of a process or thread and behind the labels of a process, and phase, category, name and everything else kept; it cannot be exactly if an id is neither a string nor a number |
| `TraceCompactor.StreamLaneCompactor.Observe` | dlengine/utils/trace_compactor.py:29-39 | the counters are the graph launches and the kernels per lane of the events seen so far |
| `TraceCompactor.StreamLaneCompactor.Finalize` | dlengine/utils/trace_compactor.py:41-60 | if a graph was launched, every lane of a group of the least size or more is mapped to the group's target, no other lane is, and each target has the number of lanes of its group on record; otherwise nothing is mapped; the count returned is the number of lanes that change |
| `TraceCompactor.DecidedOnce` | dlengine/utils/trace_compactor.py:41-60 | mapping and sizes are a function of the trace |
| `TraceCompactor.StreamLaneCompactor.Compact` | dlengine/utils/trace_compactor.py:62-81 | the event on its new lane, or nothing for a repeated thread name |
| `TraceCompactor.MergesOnlyEqual` | dlengine/utils/trace_compactor.py:41-60 | two lanes end up on one only with equal process and equal kernels |
| `TraceCompactor.KernelsConserved` | dlengine/utils/trace_compactor.py:62-81 | compaction keeps the multiset of kernels of every process |
| `TraceCompactor.DropsOnlyRepeats` | dlengine/utils/trace_compactor.py:62-81 | exactly the repeated thread names of merged lanes are dropped; the rest stays in order, each event with the thread id of the lane it is mapped to, a stream argument that named the old one moved along, a thread name that tells the number of lanes, and nothing else changed |
| `TraceMerger.ReadsBack` | dlengine/utils/trace_merger.py:238-251 | a written array reads back as its events, and nothing of what follows it is lost |
| `TraceMerger.WriteTrace` | dlengine/utils/trace_merger.py:238-254 | one trace adds exactly its kept events, in order, each on its lane and with its rank, with commas right even when events are dropped; it fails exactly on an id that cannot be remapped |
| `TraceMerger.MergedRenders` | dlengine/utils/trace_merger.py:238-254 | event by event, what is merged is what was kept of each trace, on its lane and with its rank |
| `TraceMerger.MergeTraceJsons` | dlengine/utils/trace_merger.py:214-269 | the output is the first prefix, the ranks' events in order, compacted as decided from each trace exactly when that is asked for, and the first suffix; an error exactly for no trace, a repeated rank or an id that cannot be remapped |
| `TraceMerger.MergedReadsBack` | dlengine/utils/trace_merger.py:214-269 | the merged array parses back to the concatenation of the events kept of the ranks, each on its lane and with its rank; phases, categories, names and everything else, in order, are those of the kept events |
| `TraceFiles.MergeFiles` | dlengine/utils/trace_merger.py:178-269 | from file texts: the traces merged are what the whole texts decode to, however they are read; an error only for no file, one that cannot be decoded or has an event above the limit, a repeated rank or an id that cannot be remapped |
| `TraceFiles.MergedFileReadsBack` | dlengine/utils/trace_merger.py:98-130 | the output file, however it is read behind its prefix, decodes to the files' events, remapped and compacted, in order |
| `ContextMerge.MergeWithAnyShift` | bench/k3_partition/cp_merge.py:8-34 | for every partition of the keys and whatever the shift, packing, summing and dividing gives full softmax attention |
| `ContextMerge.MergeRow` | bench/k3_partition/cp_merge.py:44-52 | with the maximum as the shift too, and zero for a row masked on every rank |
| `ContextMerger.LseIndexOf` | bench/k3_partition/cp_merge.py:11-15 | for all strides of the log-sum-exps, a row, the log-sum-exp loaded for it and the maximum it is weighted by belong to the same query and head |
| `ContextMerger.MergeGroup.Pack` | bench/k3_partition/cp_merge.py:8-22 | every rank's buffer holds its weighted rows and weights under the common maximum |
| `ContextMerger.MergeGroup.Finish` | bench/k3_partition/cp_merge.py:25-34 | every output row is the summed row divided by its weight, or zero |
| `ContextMerger.Merge` | bench/k3_partition/cp_merge.py:44-52 | every row and column of a call is softmax attention over the keys of all ranks |
| `Redistribution.TablesTranspose` | bench/k3_partition/component_kernels.py:331-333 | what a rank expects is what the other sends |
| `Redistribution.SendsAll` | bench/k3_partition/component_kernels.py:331-331 | a rank sends all it holds |
| `Redistribution.ReceivesShare` | bench/k3_partition/component_kernels.py:332-333 | a rank receives exactly its share |
| `Redistribution.AllToAll` | bench/k3_partition/component_kernels.py:339-345 | every rank receives the chunks cut for it, in rank order, when the ranks' tables agree |
| `Redistribution.ExchangeMoves` | bench/k3_partition/component_kernels.py:331-345 | exchanging by the overlaps turns any contiguous layout of the rows into any other |
| `Redistribution.DistributeAndRestore` | bench/k3_partition/component_kernels.py:331-352 | exchanging by the tables, `distribute` gives every rank its contiguous slice, and `restore` after it is the identity, for all totals and both rank counts that divide them |

## Left out

- The scheduler, block manager and wire codecs in Rust: only the contracts named above, and the fragment cutting of `prefill_microbatches`; the per-fragment payload arrays that are copied along with it are not modelled.
- The Hermes, Qwen and GLM parsers: mostly library regular expressions.
- The translation of Anthropic requests to chat messages (dlengine/server/anthropic_api.py:106-216): list building without an invariant.
- JSON values, UUIDs, clocks and logging: an argument keeps its raw text and whether it is to be decoded; call ids are ignored.
- The trace prefix search, the rank found in file names, the order the inputs are sorted in, and the renaming inside the first suffix: parameters of the merge.
- HTTP routes, disconnect monitoring, process start-up, registration, metrics and the vision-slot frees.
- Floating-point rounding in the log-sum-exp merge: the model works over the reals.
- Loss of messages on the peer-to-peer sockets: a FREE that fails to be sent is not modelled, so only safety is stated about FREE.
- Concurrency inside the HTTP process: its handlers run on one event loop, so each is one atomic action of the transition system.
- DeliveryReuse.ResubmitExactly: speaks of delivery to the client; what a reused id does to KV blocks still held for the earlier sequence is up to the block manager.
- TraceCompactor.StreamLaneCompactor.Compact: an event without a process or thread id is not looked up as if the id were a JSON null.
