# Verified models of the nicekit core

This project models the logic of the nicekit repository that is hard to get right by reading: the
structure-aware Markdown chunker, the merge suggestions with their edit distance and blocking, and the
protocol by which user messages, goal continuations, scheduled launches and terminalizations share one
chat session. Around the protocol it models the message history, context compression, the resume of
paused calls, the tool gate of the agent loop, scheduled tasks, the tool-result budget, the memory
pipeline and the client's event-stream reader. Code that works on mutable state is a class or a method
with loops, proved against a function; the properties are lemmas about that function.

| file | models |
|---|---|
| `Text.dfy`, `Lines.dfy` | strings, white space, lines, and the line recognisers of the chunker |
| `Blocks.dfy`, `Pieces.dfy`, `Packing.dfy`, `Chunker.dfy`, `Greedy.dfy` | parsing into blocks, cutting into pieces, packing into chunks |
| `Extraction.dfy`, `SegmentLaws.dfy` | sections packed into line slices, with the chunker for over-long ones |
| `EditDistance.dfy`, `Blocking.dfy` | the distance, the scores and the pairs that are compared |
| `History.dfy`, `Compression.dfy` | stored rows and provider history; summaries of a growing conversation |
| `RunInputs.dfy`, `RunProtocol.dfy`, `SessionLaws.dfy` | the queue of waiting inputs; the session and its runs |
| `Resume.dfy`, `TurnLaws.dfy`, `AtMostOnce.dfy` | paused calls and their approvals; what a request does; when each call is started at most once |
| `ToolGate.dfy`, `RunLaws.dfy` | decisions, starts and denials within one run |
| `Scheduler.dfy`, `Sse.dfy`, `Budget.dfy` | scheduled tasks, the event stream, the result budget |
| `Tokens.dfy`, `Memory.dfy` | the tokenizer and the pipeline of long-term memory |

"Ink" is text without its white space; conservation is stated on it. A protocol is a state machine whose
steps are committed transactions, and its theorems are about every sequence of steps from the start. Policy
verdicts, reviews, model replies and tool results are arbitrary inputs.

Every lemma carries `{:induction false}`: each induction is written out.

## Where the code and its promises differ

- Sentence boundaries: the comment above the pattern (`chunker.py:26`) asks white space after an ASCII `!` or
  `?`, but the first alternative of the pattern in line 27 accepts both anywhere. The model follows the code.
- Blocking loses pairs that the score would suggest: common tokens of one character (`Blocking.SingleTokenIsLost`,
  with `Blocking.TokenIsSafeIffLong`), and the row of an entity merged away, whose name with a space is an alias of
  the survivor (`Blocking.SpacedAliasIsLost`, with `Blocking.AliasIsSafeIff`). The comment at
  `dedup_suggestions.py:228` says merged rows are gone; `entity_resolution.py` keeps them, and the query does not
  filter them. Between live entities only the tokens are lost (`Blocking.LiveLosesOnly`).
- Leftovers are served before newer inputs exactly under the condition of `RunInputs.AdoptOrder`, which holds when
  adoption is the first step of a run; `RunInputs.LateAdoptionMixes` shows it fail.
- The session is read without a lock at startup, and the list of reviewer overrides is written back as it was read,
  so at-most-once needs startup and write-back to happen while the run still holds the session
  (`AtMostOnce.ResumeAtMostOnce`). `AtMostOnce.AtMostOnceIff` is the exact condition on any state, and
  `AtMostOnce.LateStartupIsSafeIff` and `AtMostOnce.LateOfferIsSafeIff` on any late step. `AtMostOnce.LateStartupRepeats`
  and `AtMostOnce.StaleWriteBackRepeats` are runs in which a call is started twice.
- Splicing an empty bundle into a history that does not end with an assistant message leaves a message that is
  neither text nor call (`History.SpliceBundleIsLegal`).
- The compression breaker never closes again by itself (`Compression.BreakerStaysOpen`).
- A repeated sighting lowers a confidence above 0.99 (`Memory.MergeLowersIff`).
- A rejected topic can come back through a live row that is more similar (`Memory.RejectedTopicReturns`); the note
  of the rejection adds words to the rejected row and makes it less similar. `Memory.TurnedAwayIff` says exactly when
  it stays out, and `Memory.AlwaysTurnedAwayIff` when it does so in every order in which the query may return rows.
- A bundle that is decided in part does not go on waiting, as the comment at `service.py:1361` has it: its turn is not
  settled, so its run is terminated, which drops the record (`AtMostOnce.PartlyDecidedIsDropped`). The user has to
  decide all of its calls in one request.
- An edit made on a clock behind the last tick can fire a trigger again (`Scheduler.EditBehindRepeats`);
  `Scheduler.EditIsSafeIff` gives the exact condition.

## Model

| member | source | states |
|---|---|---|
| Lines.Classify | packages/nicekit/src/nicekit/kb/chunker.py:22-27 | The heading, page-anchor, fence, table and blank tests exclude one another: at most one of them succeeds on a line |
| Lines.HeadingIs | packages/nicekit/src/nicekit/kb/chunker.py:22-22 | A line is a heading exactly if one to six # and white space come before a title, which starts at the first visible character and ends as early as white space, # and white space can follow to the end |
| Lines.PageAnchorIs | packages/nicekit/src/nicekit/kb/chunker.py:23-23 | A page anchor is a stripped line of just the form <!--page:N--> |
| Lines.NumberOfNumeral | packages/nicekit/src/nicekit/kb/chunker.py:88-92 | The page number read from a decimal numeral is the number it stands for |
| Lines.FencesAre | packages/nicekit/src/nicekit/kb/chunker.py:24-24 | A fence opens with three backticks or tildes, and a table row with a bar, as the first visible characters of the line |
| Blocks.PushKeepsOpenHeads | packages/nicekit/src/nicekit/kb/chunker.py:98-102 | The heading stack is exactly the list of headings that no later heading of equal or smaller level has closed |
| Blocks.ParseLaysOut | packages/nicekit/src/nicekit/kb/chunker.py:79-143 | Blocks are ordered and disjoint, leave out blank lines and page anchors only, extend as far as their kind can, and carry the open headings and the nearest page anchor above them |
| Blocks.BlockIsUniform | packages/nicekit/src/nicekit/kb/chunker.py:108-142 | No line inside a block is a page anchor, none but its first opens a section, and no fence is open after it |
| Blocks.ParseBlocks | packages/nicekit/src/nicekit/kb/chunker.py:79-143 | The one-pass parser with its mutable stack and page computes exactly those blocks, and terminates |
| Blocks.ReadBody | packages/nicekit/src/nicekit/kb/chunker.py:110-142 | The inner loops over fences, tables and paragraphs find the block that starts at a line |
| Blocks.CloseHeads | packages/nicekit/src/nicekit/kb/chunker.py:99-100 | The popping loop leaves what the stack function leaves |
| Pieces.CharLines | packages/nicekit/src/nicekit/kb/chunker.py:146-154 | Character i of a joined text is on the first line plus the number of line feeds before it |
| Pieces.SplitPara | packages/nicekit/src/nicekit/kb/chunker.py:157-185 | The window loop produces the specified pieces of the paragraph |
| Pieces.ParagraphIsCutAt | packages/nicekit/src/nicekit/kb/chunker.py:157-185 | A paragraph that fits is one piece. Else its pieces are the trimmed, non-empty windows between the cuts 0 = c0 < c1 < ... = length, where the next cut is the end exactly if at most one window remains, and otherwise lies right behind the last boundary in the window, or at its end if it has none; the window is max - overlap - 2, or a quarter of max |
| Pieces.CutsAreUnique | packages/nicekit/src/nicekit/kb/chunker.py:164-183 | There is only one such sequence of cuts |
| Pieces.SplitParaIsCut | packages/nicekit/src/nicekit/kb/chunker.py:157-185 | Cutting a paragraph keeps its visible characters exactly once and in order, each piece those of the lines it claims, covers each line, keeps path and page, and respects the limit |
| Pieces.SplitTable | packages/nicekit/src/nicekit/kb/chunker.py:188-223 | The two loops over rows and groups produce the table pieces |
| Pieces.RowGroupsTile | packages/nicekit/src/nicekit/kb/chunker.py:202-214 | Row groups partition the body rows in order; each fits the limit with its header or is a single row, and with the next row it would not fit |
| Pieces.TilesAreUnique | packages/nicekit/src/nicekit/kb/chunker.py:202-214 | There is only one such grouping |
| Pieces.TableIsSplitAt | packages/nicekit/src/nicekit/kb/chunker.py:188-223 | A table stays whole exactly if it is asked for, fits or is all header; else each of those groups is written, row by row, under the header, and header means two lines of which the second is a separator |
| Pieces.SplitTableIsCut | packages/nicekit/src/nicekit/kb/chunker.py:188-223 | Cutting a table keeps every row once apart from the repeated header, each piece the rows of its lines, and covers its lines in order |
| Pieces.TableRepeatsHeader | packages/nicekit/src/nicekit/kb/chunker.py:188-223 | What a piece of a table repeats is exactly the header with its line feed; the first piece repeats nothing |
| Pieces.TailFacts | packages/nicekit/src/nicekit/kb/chunker.py:226-244 | An overlap tail is an end of the piece, at most the limit long, and its start line is exact: the maximum in line 243 never has an effect |
| Pieces.TailIsTaken | packages/nicekit/src/nicekit/kb/chunker.py:226-244 | The tail of a breakable piece is all of it if it fits, else what follows the first boundary of its last characters, and nothing if there is none |
| Packing.CarryFacts | packages/nicekit/src/nicekit/kb/chunker.py:301-308 | Every carry together with the piece after it fits into the limit |
| Packing.AddPieceKeepsPacked | packages/nicekit/src/nicekit/kb/chunker.py:300-312 | Adding a piece keeps all chunks so far in order, in one section each, and within the limit unless they are one unsplittable piece |
| Packing.AddPieceStores | packages/nicekit/src/nicekit/kb/chunker.py:300-312 | Adding a piece loses, repeats and reorders nothing apart from carries |
| Packing.UnsplittableIsWhole | packages/nicekit/src/nicekit/kb/chunker.py:188-223 | A piece over the limit is a whole heading line, fence or table, or one table row under its header |
| Chunker.ChunksConserveInk | packages/nicekit/src/nicekit/kb/chunker.py:247-314 | Without carries and repeated table headers the chunks hold, in order, exactly the visible characters of the text minus page-anchor lines outside fences |
| Chunker.AnchorFreeTextIsConserved | packages/nicekit/src/nicekit/kb/chunker.py:247-314 | A text without page anchors keeps every visible character, from the raw string on |
| Chunker.ChunksCoverLines | packages/nicekit/src/nicekit/kb/chunker.py:247-314 | Every line that is neither blank nor a page anchor lies within the lines of some chunk |
| Chunker.ChunksHoldTheirLines | packages/nicekit/src/nicekit/kb/chunker.py:268-279 | What a chunk holds apart from its carry and repeated headers is one stretch of the visible characters of the very lines from start_line to end_line |
| Chunker.ChunksInOrder | packages/nicekit/src/nicekit/kb/chunker.py:268-276 | start_line and end_line never decrease along the chunks |
| Chunker.ChunksAreBounded | packages/nicekit/src/nicekit/kb/chunker.py:261-314 | A chunk fits the limit or is exactly one unsplittable piece; a carry is an end of the previous chunk, at most the overlap long, never alone and never in the first chunk |
| Greedy.ChunksAreGreedy | packages/nicekit/src/nicekit/kb/chunker.py:281-313 | A chunk ends only before a heading or before a piece that no longer fits, and the next one then starts with all the overlap there is: the tail of the last text, or what of that tail still fits |
| Greedy.OverlapFits | packages/nicekit/src/nicekit/kb/chunker.py:301-308 | If the overlap and the separator take at most three quarters of the limit, a piece cut from a paragraph always gets its whole overlap |
| Greedy.ContentIs | packages/nicekit/src/nicekit/kb/chunker.py:264-279 | The content of a chunk is the texts of its pieces in order, two line feeds apart |
| Chunker.OversizeChunksAreWhole | packages/nicekit/src/nicekit/kb/chunker.py:310-312 | A chunk over the limit is a whole heading line, fence or table, or one table row under its header |
| Chunker.ChunksKeepSections | packages/nicekit/src/nicekit/kb/chunker.py:281-313 | No chunk crosses a heading; all its lines have one path, the open headings above them, and its page is that of its first line |
| Chunker.HeadingsStartChunks | packages/nicekit/src/nicekit/kb/chunker.py:282-288 | A heading line can only be the first piece of a chunk |
| Chunker.Builder.FlushBuffer | packages/nicekit/src/nicekit/kb/chunker.py:264-279 | The nested flush moves the buffer into one chunk and returns the carry |
| Chunker.Builder.Add | packages/nicekit/src/nicekit/kb/chunker.py:281-312 | The loop body over the blocks does to the two lists what the packing function says |
| Chunker.ChunkMarkdown | packages/nicekit/src/nicekit/kb/chunker.py:247-314 | The program returns the chunks of the specification, and an error exactly for a limit that is not positive or an overlap outside 0 <= overlap < max_chars |
| Extraction.SectionsTileDoc | packages/nicekit/src/nicekit/kb/chunker.py:332-357 | Sections lie in order, do not overlap and hold every line that is not blank |
| Extraction.SectionsOpenAtHeadings | packages/nicekit/src/nicekit/kb/chunker.py:332-357 | Sections open exactly at the first line and at the H1 and H2 lines with an even number of fence lines above, every one of which opens one; each carries its heading, an H2 under the nearest H1 |
| Extraction.SubDocument | packages/nicekit/src/nicekit/kb/chunker.py:369-380 | The text of an over-long section splits back into exactly its lines, so the chunker sees the section |
| Extraction.ChunkUnitsOk | packages/nicekit/src/nicekit/kb/chunker.py:375-391 | The re-chunked units of an over-long section are slices of the document that cover its required lines |
| SegmentLaws.UnitsAre | packages/nicekit/src/nicekit/kb/chunker.py:360-391 | What is packed is exactly the sections that fit, without the blank lines around them, and the chunks of the others, whose own path counts before that of the section |
| Extraction.SegmentsAreSlices | packages/nicekit/src/nicekit/kb/chunker.py:375-429 | source_text is exactly the lines from line_offset; content equals it within the limit, or the segment is a chunk of an over-long section: its content, its path, and the very lines its anchors name, whose visible characters hold those of the chunk in one stretch; offsets never decrease |
| Extraction.SegmentsCoverLines | packages/nicekit/src/nicekit/kb/chunker.py:328-429 | Every line that is neither blank nor a page anchor is inside some segment |
| SegmentLaws.SegmentsAreGreedy | packages/nicekit/src/nicekit/kb/chunker.py:393-429 | Each segment is one chunk, or the longest stretch of short sections whose joint lines fit, under the path of the first |
| SegmentLaws.PacksAreUnique | packages/nicekit/src/nicekit/kb/chunker.py:393-429 | There is only one such list of segments |
| Extraction.PackUnits | packages/nicekit/src/nicekit/kb/chunker.py:393-429 | The packing loop with its mutable pack produces those segments |
| Extraction.SplitForExtraction | packages/nicekit/src/nicekit/kb/chunker.py:328-429 | The program returns the segments of the specification; a limit that is not positive is an error as soon as a line is not blank |
| Text.SplitOfJoin | packages/nicekit/src/nicekit/kb/chunker.py:281 | Joining lines and splitting again gives the same lines if the last is not empty |
| Text.LinesAreSplit | packages/nicekit/src/nicekit/kb/chunker.py:281-281 | Lines are what lies between whole line breaks, where a carriage return with its line feed is one, and the end of the text opens no line |
| EditDistance.Levenshtein | packages/nicekit/src/nicekit/kb/dedup_suggestions.py:101-121 | The two-row table with its early returns and length swap computes the recursive edit distance |
| EditDistance.DistIsMetric | packages/nicekit/src/nicekit/kb/dedup_suggestions.py:101-121 | The distance is a metric bounded by the longer length |
| EditDistance.DistIsLeastEdits | packages/nicekit/src/nicekit/kb/dedup_suggestions.py:101-121 | The distance is the least number of insertions, deletions and replacements that turn one name into the other |
| EditDistance.QGramBound | packages/nicekit/src/nicekit/kb/dedup_suggestions.py:93-98 | Names without a common bigram are at least half the longer length apart |
| EditDistance.CloseNamesShareBigram | packages/nicekit/src/nicekit/kb/dedup_suggestions.py:140-149 | Names with 5 times the distance at most the longer length share a bigram |
| Blocking.NameTokens | packages/nicekit/src/nicekit/kb/dedup_suggestions.py:63-90 | The character loop with its two buffers yields the non-CJK runs whole, adjacent CJK pairs, and lone CJK characters |
| Blocking.TokenPlace | packages/nicekit/src/nicekit/kb/dedup_suggestions.py:63-90 | A token is a stretch of the name without white space |
| Blocking.NameScoreFacts | packages/nicekit/src/nicekit/kb/dedup_suggestions.py:124-151 | The name score does not depend on the order of the pair, is 0 or between 0.6 and 0.88, and is 0 exactly if no signal fires |
| Blocking.NameScoreIsBest | packages/nicekit/src/nicekit/kb/dedup_suggestions.py:124-151 | Each signal that fires scores at most the name score, which is 0 or the score of a signal that fires |
| Blocking.SignalsAreLinear | packages/nicekit/src/nicekit/kb/dedup_suggestions.py:124-151 | Each signal rises in proportion to its evidence: the shorter in the longer name, the common tokens in all tokens, and the edits in the longer name |
| Blocking.SubstringFiresIff | packages/nicekit/src/nicekit/kb/dedup_suggestions.py:128-131 | The substring signal fires exactly for different names of two characters or more of which one holds the other |
| Blocking.TokensFireIff | packages/nicekit/src/nicekit/kb/dedup_suggestions.py:132-138 | The token signal fires exactly if the common tokens are a quarter or more of the tokens of both names together |
| Blocking.EditFiresIff | packages/nicekit/src/nicekit/kb/dedup_suggestions.py:140-149 | The edit signal fires exactly for two names without CJK of four characters or more with 5 times the distance at most the longer length |
| Blocking.PairScoreFacts | packages/nicekit/src/nicekit/kb/dedup_suggestions.py:154-179 | The pair score is symmetric, 0 or between 0.6 and 0.98, at least 0.9 exactly on a strong signal, and positive exactly if a reason is given |
| Blocking.PairScoreIs | packages/nicekit/src/nicekit/kb/dedup_suggestions.py:154-179 | The pair score is 0.98 for equal names, else 0.95 for a shared alias, else 0.92 if one name is an alias of the other, else the name score |
| Blocking.ReasonsAre | packages/nicekit/src/nicekit/kb/dedup_suggestions.py:154-179 | The reasons given are exactly those that hold, in their fixed order |
| Blocking.SimilarityFacts | packages/nicekit/src/nicekit/kb/dedup_suggestions.py:142-147 | The similarity is in [0,1], symmetric, 1 for equal names only, and at least 0.8 exactly if 5 times the distance is at most the longer length |
| Blocking.ScoresAreScales | packages/nicekit/src/nicekit/kb/dedup_suggestions.py:124-151 | Each signal scores by its evidence: length ratio, token overlap and similarity order the scores, whose ends are equal names and a fifth of the longer length |
| Blocking.ScoreNamePair | packages/nicekit/src/nicekit/kb/dedup_suggestions.py:124-151 | The running maximum over the three name signals is the name score, with the reasons in order |
| Blocking.ScoreCandidatePair | packages/nicekit/src/nicekit/kb/dedup_suggestions.py:154-179 | The running maximum over all signals is the pair score, with the reasons in order |
| Blocking.BlockingLosesOnly | packages/nicekit/src/nicekit/kb/dedup_suggestions.py:93-98 | A pair without a common key has no equal name, shared alias or edit signal, and no substring of two characters that are not spaces; what it loses is an alias hit by a name with a space or single-character tokens |
| Blocking.LiveLosesOnly | packages/nicekit/src/nicekit/kb/dedup_suggestions.py:93-98 | Between entities that have their own names as aliases (entity_resolution.py lines 114-119) no alias hit, equal name, substring or close spelling is lost; only single-character tokens are |
| Blocking.AliasIsSafeIff | packages/nicekit/src/nicekit/kb/dedup_suggestions.py:260-275 | A live entity, or the row of one merged away, shares a key with every live entity that has its name as an alias exactly if the name has no space or the entity is live |
| Blocking.SpacedAliasIsLost | packages/nicekit/src/nicekit/kb/dedup_suggestions.py:230-246 | The row of an entity merged away keeps its name and no alias, and is still read: with a space in the name its pair with the survivor scores 0.92 and is never scored |
| Blocking.TokenIsSafeIffLong | packages/nicekit/src/nicekit/kb/dedup_suggestions.py:132-138 | A common token of live entities guarantees a common key exactly if it has two characters or more |
| Blocking.SingleTokenIsLost | packages/nicekit/src/nicekit/kb/dedup_suggestions.py:132-138 | Every single-character token gives a pair of live entities at 0.6 or more that is never scored |
| Blocking.BuildIndex | packages/nicekit/src/nicekit/kb/dedup_suggestions.py:260-264 | The index lists, in increasing order, exactly the entities that have a type and key |
| Blocking.CandidatePairs | packages/nicekit/src/nicekit/kb/dedup_suggestions.py:265-275 | Every scored pair shares a type and key, before the cap every such pair is scored, and the pairs exceed the cap by at most one for each key |
| Blocking.StrongPairsAreCandidates | packages/nicekit/src/nicekit/kb/dedup_suggestions.py:260-275 | Before the cap every same-type pair with an equal name, shared alias, substring or edit signal is scored |
| History.RebuildIsLegal | packages/nicekit/src/nicekit/agent/service.py:597-646 | For arbitrary rows every assistant message of the rebuilt history is followed by exactly the results of its calls, in order, and says or calls something |
| History.RowsToHistory | packages/nicekit/src/nicekit/agent/service.py:597-646 | The row loop, which adds calls to an assistant object it has already appended, builds exactly the history of the grouping definition |
| History.PersistMessages | packages/nicekit/src/nicekit/agent/service.py:1149-1187 | One row per recorded message, with consecutive sequence numbers |
| History.RoundTrip | packages/nicekit/src/nicekit/agent/service.py:1149-1187 | Storing what a run recorded and rebuilding it gives the conversation minus exactly the unanswered or nameless calls and the blank messages that own no result |
| History.CompleteRoundTrip | packages/nicekit/src/nicekit/agent/loop.py:1173-1189 | A conversation in which every call is answered comes back word for word |
| History.RebuildCut | packages/nicekit/src/nicekit/agent/service.py:597-646 | Cutting the rows before a user or assistant row cuts the rebuilt history there |
| History.TurnVanishesIff | packages/nicekit/src/nicekit/agent/service.py:597-646 | A stored message of the model leaves nothing in the history exactly if there is only white space in it and no tool row with an id and a name belongs to it |
| History.SplicePendingCall | packages/nicekit/src/nicekit/agent/service.py:649-677 | Resuming one call changes the last assistant message in place, or adds one, and appends the result |
| History.SplicePendingBundle | packages/nicekit/src/nicekit/agent/service.py:680-713 | Resuming a bundle sets the calls of the last assistant message and appends the results; a count mismatch is an error that changes nothing |
| History.SplicesAre | packages/nicekit/src/nicekit/agent/service.py:649-713 | A resumed call goes behind the calls of the last message, if the model spoke last, and else into a message of its own; a bundle replaces the calls |
| History.SpliceCallIsLegal | packages/nicekit/src/nicekit/agent/service.py:649-677 | Resuming one call keeps the history legal |
| History.SpliceBundleIsLegal | packages/nicekit/src/nicekit/agent/service.py:680-713 | Resuming a bundle keeps the history legal exactly if the bundle is not empty or the history ends with an assistant message |
| History.SpliceMatchesRebuild | packages/nicekit/src/nicekit/agent/service.py:649-713 | The resumed history equals the one rebuilt later exactly if the paused row has text, or has none and follows no other assistant message |
| Compression.ShouldCompress | packages/nicekit/src/nicekit/agent/compression.py:74-79 | At least 20 messages and at least 45000 estimated tokens |
| Compression.SummaryBoundary | packages/nicekit/src/nicekit/agent/compression.py:115-126 | The backward search returns the newest user row that leaves 15 rows, or 0 |
| Compression.SummaryPartitions | packages/nicekit/src/nicekit/agent/compression.py:82-111 | The latest summary stands for exactly the rows up to covered_until_sequence, the history injects exactly the rest, at least 15 rows, and no tool row leaves its assistant message |
| Compression.CompressesIff | packages/nicekit/src/nicekit/agent/compression.py:143-193 | A compression starts exactly if the newest three have not all failed and the rows no summary stands for are twenty or more, of 45000 estimated tokens or more, with a user row to cut at; it covers the rows before the newest such user row |
| Compression.FinishTakesEffect | packages/nicekit/src/nicekit/agent/compression.py:195-233 | A compression that succeeds takes effect unless a later one already has, and one that fails only counts as a failure |
| Compression.PlanAdvances | packages/nicekit/src/nicekit/agent/compression.py:178-219 | A compression covers strictly more than the latest summary and keeps the tail |
| Compression.ReachableIsPartitioned | packages/nicekit/src/nicekit/agent/compression.py:143-235 | This holds after any sequence of turns, overlapping compressions, failures and crashes |
| Compression.CoverageGrows | packages/nicekit/src/nicekit/agent/compression.py:96-111 | Coverage never moves back, whichever compression finishes last |
| Compression.BreakerStaysOpen | packages/nicekit/src/nicekit/agent/compression.py:157-176 | After three failed compressions with none in flight none is ever started again |
| RunInputs.OrderIs | packages/nicekit/src/nicekit/agent/run_inputs.py:265-281 | The queue query returns the one sorted list of the queued inputs it selects |
| RunInputs.EnqueueAppends | packages/nicekit/src/nicekit/agent/run_inputs.py:110-148 | A new input goes to the end of the queue of its run, behind every position in it, and touches no other queue |
| RunInputs.ConsumePops | packages/nicekit/src/nicekit/agent/run_inputs.py:265-318 | Consuming removes the input that has waited longest, and no other |
| RunInputs.ServeTurnsHead | packages/nicekit/src/nicekit/agent/run_inputs.py:265-318 | Serving turns exactly the head of the queue into one message with its text, and nothing happens if the queue is empty or the place of the message is taken |
| RunInputs.PostIs | packages/nicekit/src/nicekit/agent/service.py:1149-1187 | Another message is written exactly if its place in the session is free, and changes no input |
| RunInputs.AdoptOrder | packages/nicekit/src/nicekit/agent/run_inputs.py:231-262 | Adopted leftovers come before everything the new run has queued exactly if no input of the run holds a position they take |
| RunInputs.AdoptFirst | packages/nicekit/src/nicekit/agent/run_inputs.py:231-262 | As the first step of a run, adoption makes the leftovers its queue in the order they waited |
| RunInputs.LateAdoptionMixes | packages/nicekit/src/nicekit/agent/run_inputs.py:258-262 | Adopted after an input was queued, two leftovers are served with that input between them |
| RunInputs.ReorderIs | packages/nicekit/src/nicekit/agent/run_inputs.py:64-76 | A reordering is accepted exactly if it is a permutation of the queued inputs, and then it is the order of service |
| RunInputs.EditChangesText | packages/nicekit/src/nicekit/api/v1/chat.py:945-969 | Editing a queued input changes its text and no queue, and any other input is refused |
| RunInputs.DeleteTakesOut | packages/nicekit/src/nicekit/api/v1/chat.py:972-990 | Deleting a queued input takes it out of its queue and keeps the order of the rest |
| RunInputs.DropEmptiesQueue | packages/nicekit/src/nicekit/agent/run_inputs.py:321-350 | Ending a run empties its queue and no other |
| RunInputs.HandledOnce | packages/nicekit/src/nicekit/agent/run_inputs.py:284-318 | Over any run a consumed input owns exactly one message, with its text, and no other input owns any |
| RunInputs.LeavingIsFinal | packages/nicekit/src/nicekit/agent/run_inputs.py:56-61 | An input that has left the queue never changes again, and a second consumption does nothing |
| RunInputs.Inputs.AdoptLeftoverInputs | packages/nicekit/src/nicekit/agent/run_inputs.py:231-262 | The adoption loop renumbers the leftovers as specified |
| RunInputs.Inputs.ConsumeQueuedInput | packages/nicekit/src/nicekit/agent/run_inputs.py:284-318 | Consumption in place: one message, or nothing |
| RunInputs.Inputs.SkipQueuedInputs | packages/nicekit/src/nicekit/agent/run_inputs.py:321-350 | Exactly the queued inputs of the run are skipped |
| RunInputs.Inputs.ReorderInputs | packages/nicekit/src/nicekit/agent/run_inputs.py:64-76 | Positions follow the given order, or nothing changes |
| RunProtocol.MarkPlanInterrupted | packages/nicekit/src/nicekit/domain/agent_plan.py:31-47 | Exactly the steps in progress become failed with the note; None if there were none |
| RunProtocol.OneHolder | packages/nicekit/src/nicekit/agent/terminal.py:103-177 | Under every interleaving each run is claimed at most once and ended at most once, and active_run_id is exactly the run that is claimed and not ended |
| RunProtocol.OnlyOwnEnd | packages/nicekit/src/nicekit/agent/terminal.py:103-113 | A claim is taken away only by its own release or terminalization; a stale one changes nothing |
| RunProtocol.TerminalLeavesNothing | packages/nicekit/src/nicekit/agent/terminal.py:136-172 | The terminal commit leaves no queued input of the run, no step in progress and no pending request, and changes nothing else |
| RunProtocol.TerminalReasonIs | packages/nicekit/src/nicekit/agent/terminal.py:113-116 | The terminal reason is the stripped reason, cut to its limit, or the kind of stop if nothing is left of it |
| RunProtocol.TerminalFailsSteps | packages/nicekit/src/nicekit/domain/agent_plan.py:21-42 | The terminal commit fails exactly the steps in progress, with that reason in the note |
| RunProtocol.EndedStaysEnded | packages/nicekit/src/nicekit/agent/service.py:2491-2521 | An ended run, with or without inputs left, never holds the session again |
| RunProtocol.EndedQueueStaysEmpty | packages/nicekit/src/nicekit/agent/service.py:2491-2521 | If nothing is queued for an ended run, nothing ever is unless its stale worker adopts |
| RunProtocol.ContinuesIff | packages/nicekit/src/nicekit/agent/session_goal.py:161-187 | A continuation is due exactly for an active goal within its counts and tokens, in a free session with no pending request, no open question and nothing queued |
| RunProtocol.ContinuationsAreBounded | packages/nicekit/src/nicekit/agent/session_goal.py:411-464 | Between two settings of the goal at most max_auto_runs continuations start |
| RunProtocol.SetGoalBinds | packages/nicekit/src/nicekit/agent/session_goal.py:219-264 | From the setting of a goal to the next one, its limits are the ones the user gave, or 200000 tokens and 10 runs where none or 0 was given, its use is the sum of what the turns recorded, and no more continuations start than the user allowed |
| RunProtocol.BudgetEnds | packages/nicekit/src/nicekit/agent/session_goal.py:161-187 | Once the recorded turns have used up the budget that was set, no continuation starts until the goal is set again |
| SessionLaws.ContinuationIs | packages/nicekit/src/nicekit/agent/session_goal.py:411-464 | A continuation starts a run, and is counted once, exactly if nothing speaks against it |
| RunProtocol.GoalBecomes | packages/nicekit/src/nicekit/agent/session_goal.py:274-300 | The status of a goal changes by setting it, cancelling it, completing an open one, and by the budget alone |
| SessionLaws.GoalCounts | packages/nicekit/src/nicekit/agent/session_goal.py:303-320 | What a goal has used and been continued changes by the recorded turns and by continuations only |
| RunProtocol.FinishedGoalIsQuiet | packages/nicekit/src/nicekit/agent/session_goal.py:161-187 | A goal that is not active starts nothing until it is set again |
| RunProtocol.LeftoversBecomeTheQueue | packages/nicekit/src/nicekit/agent/service.py:1226-1230 | A run that adopts first has exactly the inputs left in the session as its queue, in order |
| RunProtocol.QueueIsFifo | packages/nicekit/src/nicekit/agent/service.py:2287-2381 | Until the queue is rearranged or dropped it is first in, first out |
| SessionLaws.MessageIs | packages/nicekit/src/nicekit/api/v1/chat.py:700-873 | A message that the session has a use for joins the end of the queue of the run that holds it, or starts a run; any other one changes nothing |
| SessionLaws.LaunchIs | packages/nicekit/src/nicekit/agent/icron.py:735-763 | The scheduler starts a run exactly on a session that is idle, with nothing open |
| SessionLaws.CancelRequestIs | packages/nicekit/src/nicekit/api/v1/chat.py:1108-1127 | A request to cancel is seen for as long as the run that held the session then holds it, and by no later run; without a run it is not noted |
| SessionLaws.CancelsHaveRuns | packages/nicekit/src/nicekit/agent/service.py:2508-2521 | No request to cancel outlives its run |
| SessionLaws.OpenRequestsAre | packages/nicekit/src/nicekit/agent/service.py:2425-2443 | A confirmation and a question are opened by a pausing turn only, and closed by the run that takes them up or by the terminal commit of the holder |
| SessionLaws.PlanIs | packages/nicekit/src/nicekit/domain/agent_plan.py:26-42 | The plan is what the tool wrote, apart from steps that fail with the run that holds the session |
| RunProtocol.InputsAreHandledOnce | packages/nicekit/src/nicekit/agent/run_inputs.py:284-318 | The exactly-once property of inputs in the whole session |
| RunProtocol.ChatSession.SendMessage | packages/nicekit/src/nicekit/api/v1/chat.py:700-869 | A message starts a run, or is queued for the one that holds the session. A blank one that carries nothing is refused; a running session takes plain messages only; an idle one takes exactly the fitting answer while a question is open, and else decisions on waiting calls, an override or the continuation of a failed step only where they fit and, for the last two, nothing is pending |
| RunProtocol.ChatSession.ClaimContinuationRun | packages/nicekit/src/nicekit/agent/session_goal.py:411-464 | A continuation claims the session exactly if no veto applies, and counts before it runs |
| RunProtocol.ChatSession.TerminalizeAgentRun | packages/nicekit/src/nicekit/agent/terminal.py:83-228 | The terminal transaction on the session, guarded by the claim, with the stripped and cut reason or the kind of stop |
| RunProtocol.ChatSession.ReleaseRun | packages/nicekit/src/nicekit/agent/service.py:2508-2521 | The release, guarded by the claim |
| RunProtocol.ChatSession.ResetGoal | packages/nicekit/src/nicekit/agent/session_goal.py:219-264 | Setting a goal writes the goal of SetGoalBinds into the row: active, with counts at 0 |
| Resume.ApplyApprovalDecisions | packages/nicekit/src/nicekit/agent/permissions/approval.py:48-90 | The loop over the decisions applies them all, or refuses them all |
| Resume.DecideAllRules | packages/nicekit/src/nicekit/agent/permissions/approval.py:48-90 | Decisions change waiting items only, and every change is the verdict of a decision on that call |
| Resume.DecideAllIff | packages/nicekit/src/nicekit/agent/permissions/approval.py:48-90 | The decisions are applied exactly if each names a waiting item and approves it for a scope the item offers or rejects it, and no two name the same call |
| TurnLaws.DecidedIs | packages/nicekit/src/nicekit/agent/permissions/approval.py:48-90 | Then each item carries the decision that names it, and the others are as they were |
| Resume.RuleIs | packages/nicekit/src/nicekit/agent/service.py:1308-1423 | A request that is no confirmation rejects what waits; one for another bundle, or that does not fit, is an error; a single confirmation approves or rejects its call |
| TurnLaws.ConfirmIsCarriedOut | packages/nicekit/src/nicekit/agent/service.py:1308-1384 | From the claim to the commit of its startup, a confirmation of a pending bundle is carried out exactly if it is addressed to the bundle and all its decisions fit: the run goes on with the decided items, or stores them again if some still wait; else the bundle stays as it was, and a confirmation that names no waiting call changes nothing at all |
| TurnLaws.SingleIsCarriedOut | packages/nicekit/src/nicekit/agent/service.py:1385-1423 | A call paused before there were bundles is approved or rejected by its own confirmation, and any other one is refused |
| TurnLaws.MessageDismisses | packages/nicekit/src/nicekit/agent/permissions/approval.py:92-111 | A new message rejects exactly what waits and has the results recorded; an answer or a continued step drops the record |
| TurnLaws.OverrideIsTaken | packages/nicekit/src/nicekit/agent/service.py:1295-1306 | An override is taken, and used up, exactly if it is still offered and no bundle is pending |
| TurnLaws.ExpiredAreDropped | packages/nicekit/src/nicekit/agent/service.py:1295-1306 | An override that has expired when the session is read is not used, and is written away with the startup |
| TurnLaws.PausedHopIsStored | packages/nicekit/src/nicekit/agent/loop.py:300-352 | A paused hop stores its calls in order: those to be asked about wait, the others keep their verdict, and only a reviewable one offers approval for the session |
| TurnLaws.OnlyHolderEnds | packages/nicekit/src/nicekit/agent/terminal.py:103-177 | The terminal commit of the run that holds the session drops what is pending; from any other run it changes nothing |
| Resume.EveryStartIsAuthorised | packages/nicekit/src/nicekit/agent/service.py:1952-2063 | Over any run a paused call is started only by a run that is neither cancelled nor timed out, with its tool allowed, on the approval of the user or a permission given at the pause that still stands, never against a prohibition, with the one fingerprint recorded for it, and an override only where it is still overridable (an old single confirmation is not checked again) |
| Resume.EveryApprovalWasAsked | packages/nicekit/src/nicekit/agent/service.py:1219-1426 | Over any run every approval of a call is a request that was made: one that approves a call of this id, or names the override |
| Resume.NextStartsIff | packages/nicekit/src/nicekit/agent/service.py:1823-2180 | In any state a run reaches, the next call of a resumed record is started exactly if the run goes on, the tool is allowed, and the call is agreed to as it is now |
| Resume.HaltedStartsNothing | packages/nicekit/src/nicekit/agent/service.py:1967-1983 | A run that is cancelled or timed out, or has its tools not allowed, starts nothing more, over any steps |
| AtMostOnce.AtMostOnceIff | packages/nicekit/src/nicekit/agent/service.py:1219-1426 | From any state that knows its names, runs that read, commit and write back in time start each call at most once exactly if every call is in one place: started, ahead of one worker, or stored where a run can still take it; also after the commit of the run that holds the session |
| AtMostOnce.ReachableOnceIff | packages/nicekit/src/nicekit/agent/service.py:1219-1426 | The same for every state that any run reaches, in time or not |
| AtMostOnce.ResumeAtMostOnce | packages/nicekit/src/nicekit/agent/service.py:1302-1426 | Each paused call is started at most once if every startup and every write-back happens while its run holds the session |
| AtMostOnce.PausedCallCanStart | packages/nicekit/src/nicekit/agent/service.py:1952-2063 | From any paused hop the user can have each call that was allowed or waits started, if ids tell the calls apart |
| AtMostOnce.OfferedCanStart | packages/nicekit/src/nicekit/agent/service.py:2444-2451 | So can a call that the reviewer denied and that is offered for an override |
| AtMostOnce.RejectedNeverStarts | packages/nicekit/src/nicekit/agent/service.py:1308-1384 | Once a startup in time has rejected a call of a paused hop, it is never started, whatever happens in time |
| AtMostOnce.LateStartupIsSafeIff | packages/nicekit/src/nicekit/agent/service.py:1295-1308 | A late startup does no harm exactly if what it takes was not started and is ahead of no other worker, the holder of the session does not have it in what it has read, and what it writes back and can be taken again was not started and is ahead of no worker |
| AtMostOnce.LateOfferIsSafeIff | packages/nicekit/src/nicekit/agent/service.py:2444-2451 | A late write-back of the overrides at the end of a turn does no harm exactly if nothing in the copy was started or is ahead of a worker |
| AtMostOnce.PartlyDecidedIsDropped | packages/nicekit/src/nicekit/agent/service.py:1352-1370 | When a request leaves calls of a bundle undecided, or its startup fails, nothing that was pending then is pending once its run no longer holds the session |
| AtMostOnce.LateStartupRepeats | packages/nicekit/src/nicekit/agent/service.py:1219-1308 | With a late startup of a terminated run the same override is started twice |
| AtMostOnce.StaleWriteBackRepeats | packages/nicekit/src/nicekit/agent/service.py:1295-1306 | A late startup writes back the list it read, and another override is started twice although both its runs are in time |
| ToolGate.JudgeHop | packages/nicekit/src/nicekit/agent/loop.py:868-1063 | The evaluation loop with its counter of denials yields the final decision on every call |
| RunLaws.EveryVerdictIs | packages/nicekit/src/nicekit/agent/loop.py:868-1003 | The verdict on the n-th call of a run is Allow exactly if the call is permitted and, where it is routed to the reviewer, the three routed calls before it were not all refused; the user is asked exactly where the policy says so or the reviewer is missing, fails, is malformed or asks; all else is denied |
| ToolGate.ExecuteHop | packages/nicekit/src/nicekit/agent/loop.py:1118-1163 | Reads are started first, the rest in order up to the first interruption; results are recorded in the order of the calls |
| RunLaws.StartsExactly | packages/nicekit/src/nicekit/agent/loop.py:1118-1163 | A hop that needs no user starts exactly the allowed calls that are not cancelled: every read, and of the others those that no interruption comes before and no read answers |
| RunLaws.EveryHopIsDone | packages/nicekit/src/nicekit/agent/loop.py:1065-1163 | In every hop of a run that holds, and the k-th recorded output is the output of the k-th call, or of the read under its id, or the denial |
| ToolGate.RunLoop | packages/nicekit/src/nicekit/agent/loop.py:589-1170 | The loop over the turns ends, records and starts what the specification says |
| RunLaws.RunGoesTurnByTurn | packages/nicekit/src/nicekit/agent/loop.py:589-1170 | A run records, turn by turn, the error, the text or the calls of the reply, and goes on until a turn ends it, for exactly the reason that turn gives |
| ToolGate.RunIsGated | packages/nicekit/src/nicekit/agent/loop.py:1065-1163 | Only finally allowed calls start, each once, none in a hop that needs the user, and the run stops for a confirmation exactly if some hop needs the user |
| ToolGate.BreakerHolds | packages/nicekit/src/nicekit/agent/loop.py:926-1003 | After three consecutive reviewer denials no call of the run reaches the reviewer and every routed call is denied |
| ToolGate.RunIsPermitted | packages/nicekit/src/nicekit/agent/loop.py:868-1163 | In every run each started call is one that the policy or the reviewer permits |
| ToolGate.UnattendedNeverConfirms | packages/nicekit/src/nicekit/agent/sub_agents.py:226-302 | With the unattended wrappers the loop never stops for a confirmation, and every started call is one of the run that the policy of the parent, or its reviewer where the policy asks it, allows |
| RunLaws.UnattendedVerdictIs | packages/nicekit/src/nicekit/agent/sub_agents.py:226-302 | In an unattended run the user is never asked, what the parent run would allow is allowed, and all else is denied |
| ToolGate.WrappingOnlyNarrows | packages/nicekit/src/nicekit/agent/sub_agents.py:226-302 | The wrapped policy and reviewer allow exactly what the policy or reviewer of the parent run allows without asking |
| ToolGate.RunAnswers | packages/nicekit/src/nicekit/agent/loop.py:868-1163 | A run that stops for the user leaves exactly the calls of its last hop unanswered, an interrupted one those behind the interrupting call, and any other none, unless an invalid question comes with other calls |
| ToolGate.RunComesBack | packages/nicekit/src/nicekit/agent/loop.py:1173-1189 | What a run recorded is rebuilt for the next one without its unanswered calls, as a legal history; word for word if the run neither stops for the user nor is interrupted, drops no call beside an invalid question, and every reply says or calls something |
| Scheduler.EachTriggerFiresOnce | packages/nicekit/src/nicekit/agent/icron.py:1040-1103 | With any number of workers and delays no trigger is claimed twice, triggers and ticks go strictly forward, and the next trigger lies after the last tick |
| Scheduler.EditIsSafeIff | packages/nicekit/src/nicekit/agent/icron.py:509-529 | After an edit on any clock, triggers and ticks keep going forward in every run of claims and of edits that meet the condition exactly if the edit meets it: the trigger it sets lies past the last tick |
| Scheduler.EditBehindRepeats | packages/nicekit/src/nicekit/agent/icron.py:509-529 | An edit on a clock behind the last tick can bring a claimed trigger back |
| Scheduler.OnceFiresOnce | packages/nicekit/src/nicekit/agent/icron.py:1058-1077 | An unedited once task fires at most once and is archived |
| Scheduler.ManualNeverFires | packages/nicekit/src/nicekit/agent/icron.py:199-200 | A manual task never fires |
| Scheduler.IntervalIsBounded | packages/nicekit/src/nicekit/agent/icron.py:185-218 | An unedited interval task fires at most floor(T/I)+1 times in a window of length T |
| Scheduler.NextRunIsLater | packages/nicekit/src/nicekit/agent/icron.py:185-218 | The next trigger is strictly later than the moment it is computed from |
| Scheduler.EditSetsNext | packages/nicekit/src/nicekit/agent/icron.py:509-529 | An edit sets the next trigger after its moment, and a task that is not active has none |
| Scheduler.ClaimTakesTrigger | packages/nicekit/src/nicekit/agent/icron.py:1058-1103 | A claim takes the trigger exactly if the task is active, due as it was seen, and unchanged since; it sets the next one after the tick |
| Scheduler.ClaimsKeepRhythm | packages/nicekit/src/nicekit/agent/icron.py:1058-1077 | Over any claims every trigger is the next slot after the tick that claimed the one before: what was missed meanwhile is skipped, and nothing else is |
| Scheduler.IcronTask.ClaimDueTask | packages/nicekit/src/nicekit/agent/icron.py:1080-1103 | The conditional update claims exactly if the row is active and its trigger is the one that was seen |
| Scheduler.IcronTask.SetTaskStatus | packages/nicekit/src/nicekit/agent/icron.py:509-529 | Pausing and archiving clear the trigger, resuming recomputes it |
| Sse.DrainSplits | apps/demo/frontend/src/lib/api.ts:307-322 | Frames and rest glue back to the text, the rest holds no complete frame |
| Sse.OnlySplit | apps/demo/frontend/src/lib/api.ts:314-317 | That split is the only one |
| Sse.DrainInPieces | apps/demo/frontend/src/lib/api.ts:307-322 | A text that arrives in two pieces is drained as if it had arrived at once |
| Sse.PostSse | apps/demo/frontend/src/lib/api.ts:307-322 | However the text is cut, the events and the buffer are those of the whole text, and the loops terminate |
| Sse.StreamRoundTrip | packages/nicekit/src/nicekit/api/v1/chat.py:905-911 | However the stream is cut, the client delivers exactly the events the server wrote |
| Sse.FramesRoundTrip | apps/demo/frontend/src/lib/api.ts:307-322 | However a stream of frames of several lines is cut, the events are the payloads of all their data lines, in order |
| Budget.BudgetedIs | packages/nicekit/src/nicekit/agent/context_budget.py:134-165 | The budget keeps number, order, roles, ids and names, other messages, and the newest keep_recent results word for word |
| Budget.ReplacesIff | packages/nicekit/src/nicekit/agent/context_budget.py:134-165 | A result is replaced exactly if the results are over a positive budget together, keep_recent newer ones remain, and it is not a placeholder yet; everything else stays |
| Budget.ResultsAre | packages/nicekit/src/nicekit/agent/context_budget.py:134-165 | What counts as a result is exactly the tool messages that are not empty, in order |
| Budget.BudgetIsIdempotent | packages/nicekit/src/nicekit/agent/context_budget.py:134-165 | Applying the budget twice is applying it once |
| Budget.ApplyToolResultBudget | packages/nicekit/src/nicekit/agent/context_budget.py:134-165 | The list for a request has fresh copies in place of the old results; no message object is written to |
| Budget.Requests | packages/nicekit/src/nicekit/agent/loop.py:690-745 | However often the budget is applied, no recorded message ever changes, although the lists share their objects |
| Tokens.Tokenize | packages/nicekit/src/nicekit/agent/memory.py:244-258 | The tokenizer with its loop over the runs yields the specified tokens |
| Tokens.TokensAre | packages/nicekit/src/nicekit/agent/memory.py:231-258 | A token is exactly a longest run of ASCII letters and digits, two adjacent Han characters, or a Han character that stands alone |
| Tokens.CaseDoesNotMatter | packages/nicekit/src/nicekit/agent/memory.py:250-251 | Texts that differ in the case of ASCII letters only have the same tokens |
| Memory.SimilarityIs | packages/nicekit/src/nicekit/agent/memory.py:261-266 | The similarity is in [0,1], symmetric, and 1 for equal non-empty token sets only |
| Memory.FindDuplicate | packages/nicekit/src/nicekit/agent/memory.py:674-689 | The merge target is a most similar row of the scope at or above the threshold, the first read of several |
| Memory.TitleWeighsMore | packages/nicekit/src/nicekit/agent/memory.py:674-689 | Equal titles match whatever the text, titles without a common word never; with equal texts a quarter of the title is enough, with unrelated texts eleven twelfths are needed |
| Memory.MergeTarget | packages/nicekit/src/nicekit/agent/memory.py:720-764 | A merge goes to such a row, and that row was not rejected |
| Memory.IngestIs | packages/nicekit/src/nicekit/agent/memory.py:692-783 | A candidate that is doubtful, hedged or a mood changes nothing; without a match it becomes one new row, a preference only as a candidate; else exactly the first read of the most similar rows is seen once more, unless it was rejected: its confidence, text, status and kind change as promised |
| Memory.MergedIs | packages/nicekit/src/nicekit/agent/memory.py:737-764 | Seen again, a row has the larger confidence and a tenth for each earlier sighting, at most 0.99, the longer text, and is formal exactly if it was or now has two sightings and 0.7 |
| Memory.PromotedWhenDue | packages/nicekit/src/nicekit/agent/memory.py:389-399 | Over any history a preference is formal exactly if it has been seen twice and is at least 0.7 certain |
| Memory.MergeLowersIff | packages/nicekit/src/nicekit/agent/memory.py:378-386 | A merge lowers the confidence exactly if it was above the cap of 0.99 |
| Memory.IngestCounts | packages/nicekit/src/nicekit/agent/memory.py:692-783 | Every candidate that is not dropped adds one sighting in one row |
| Memory.DecisionsAre | packages/nicekit/src/nicekit/api/v1/memory.py:268-294 | A rejection marks one row and notes its reason in the text, once, and leaves the others alone |
| Memory.RejectedForGood | packages/nicekit/src/nicekit/agent/memory.py:725-733 | Over any sequence of ingests a rejected memory is never modified or revived, and every formal preference has two sightings and confidence 0.7 |
| Memory.TurnedAwayIff | packages/nicekit/src/nicekit/agent/memory.py:720-733 | In whatever order the rows are read, a screened candidate is turned away exactly if the first read of the most similar matching rows was rejected; then nothing changes |
| Memory.AlwaysTurnedAwayIff | packages/nicekit/src/nicekit/agent/memory.py:646-733 | It is turned away in every order of reading, which the query leaves open, exactly if some row matches and all of the most similar ones were rejected |
| Memory.RejectedTopicStaysOutIff | packages/nicekit/src/nicekit/agent/memory.py:720-733 | After any history a candidate in the words of a rejected row is turned away in every order of reading exactly if every row in these words was rejected |
| Memory.RejectedTopicReturns | packages/nicekit/src/nicekit/agent/memory.py:720-764 | With the tokenizer and the note of the program, a candidate that matches a rejected row merges into a live row that is more similar, in every order of reading |
| Memory.Store.IngestCandidate | packages/nicekit/src/nicekit/agent/memory.py:692-783 | Ingestion updates or adds one row, or changes nothing |
| Memory.RankAndSelect | packages/nicekit/src/nicekit/agent/memory.py:518-579 | Every memory is selected or dropped, exactly once; the selected are ranked and within both limits; nothing is dropped that would have fitted behind the better ones |

## Left out

- Lines.PageAnchor: `\d` also accepts Unicode digits; the model reads ASCII digits only.
- Blocking.PairScoreFacts: scores are reals, so rounding of binary fractions at the thresholds is not modelled.
- Blocking: `normalize_alias`, the semantic bonus, the direction of a suggestion and the final sort are not modelled; names arrive stripped and case-folded.
- Blocking.CandidatePairs: past the cap of 20000 pairs the loops add at most one more pair for each key; which ones depends on the order of the keys, which is not modelled.
- History: JSON values are opaque texts, and the truncation of long outputs is not modelled.
- Compression: the snapshot of a compression is one step, and a summary's text is represented by the rows merged into it.
- RunProtocol.ContinuationsAreBounded: the goal row is read without a lock of its own; the claim is one step here, so a goal set in the middle of it is not modelled.
- RunProtocol.OneHolder: run ids are fresh numbers, as random UUIDs are taken to be; launches that open a new session, visible messages, events and finalizers of the host are not modelled.
- RunProtocol.EndedStaysEnded: writes of a worker whose run was terminated are possible in the program and in the model; only the claim is protected.
- AtMostOnce.ResumeAtMostOnce: which overrides have expired or are cut from the newest ten is an arbitrary set at every reading and write-back; clocks and the order of the list are not modelled.
- AtMostOnce.LateStartupIsSafeIff: the state before is safe; that excludes only states from which a call can already be started twice, by AtMostOnce.AtMostOnceIff.
- RunProtocol.ChatSession.SendMessage: whether an answer, a decision or an override fits what the session has is an input; the checks of the thinking level, the web search and the model are not modelled.
- Extraction.SegmentsAreSlices: the carry and the repeated headers of a chunk are not part of the stretch; overlap is 0 there, so only headers are.
- Tokens.TokensOf: lower-casing changes ASCII letters only; the two other characters whose lower case holds an ASCII letter (the Kelvin sign and the dotted capital I) are left as they are.
- ToolGate.RunLoop: the branch without a preflight, which the service never takes, is not modelled, nor are events, progress, thinking blocks and usage; cancelled and timed-out executions end the run in one way.
- ToolGate.UnattendedNeverConfirms: a valid question to the user still stops an unattended run.
- ToolGate: after an invalid question that comes with other calls the live message list leaves those unanswered; only the rebuilt history is closed.
- Scheduler.EachTriggerFiresOnce: cron expressions and time zones are an arbitrary function that names later times; times are whole seconds.
- Sse.PostSse: decoding of bytes and the parsing of each event's JSON are not modelled.
- Budget.BudgetedIs: the JSON of a placeholder is any text that is recognised as one.
- Memory: edits that a user makes to a stored memory, other than rejecting it, are not modelled; the tokenizer is any function except where a result names it, and markers, relevance and scores are inputs, and rounding to four digits is any function that moves a value by at most half a unit of the last place.
- Database sessions, row-level security, providers, prompts, tools, HTTP and the user interface are not modelled.
- The trace packer (`tool_trace.py`), the direction of merges, settings, authentication and encryption would add easy members only.
