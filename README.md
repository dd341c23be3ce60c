# Open WebUI plugins, modelled in Dafny

This project models the logic of a collection of standalone Open WebUI
plugins and proves what each one promises. The plugins come in four kinds:

- pipes, which forward a chat to LiteLLM;
- filters, which rewrite a request on its way in (`inlet`) or an answer on
  its way out (`outlet`);
- actions, which run when the user presses a button;
- tools, which the model can call.

Once the network, Langfuse, genanki and wdoc calls are set aside, what is
left is text and message-list logic. This project models that logic.

## What is modelled

- **Shared modules.**
  - `Json`: JSON values, with Python dicts as ordered lists of entries.
  - `Text`: Python string operations.
  - `Spans`: literal-delimiter regular expression searches.
  - `Thoughts`: the thought-block delimiters "``` ?thinking" and "```",
    searched greedily, lazily and at the start of a line.
  - `ChunkParsing`: the classifier of streaming lines (server-sent events,
    section 9.2 of the WHATWG HTML Standard, one `data:` line per event).
  - `Status`: the status notifications.
  - `Wrappers`: optional values.
- **Streaming thought strippers.** `RemoveThinkingPipe`,
  `HideThinkingPipe` and `CostTrackingPipe` are classes over their stream
  state: the buffer, the count of removed blocks and what has been yielded.
  `RemoveThinkingPipe` and `HideThinkingPipe` keep a ghost ledger of the
  blocks they cut. They prove that putting these blocks back where they
  stood, into what was yielded followed by the buffer, gives exactly the
  text received. The hiding pipe applies this to the text it passes through
  and yields each cut block rewrapped. `CostTrackingPipe` proves that its
  whole output is the received text with its first block cut out.
- **Whole-message thought removal.** `ThinkingFilter`, `HideThinkingFilter`
  and `DontAccumulateThoughts`.
- **Chat-history transforms.**
  - `CombineUserMessages`;
  - `InfiniteChat` and `WarnIfLongChat`;
  - Claude prompt caching: `ClaudeCaching` is the rewrite, and
    `ClaudeCachingFilter` and `WipClaudeCachingFilter` are the two filters
    that use it;
  - `ToolCompressor`, the tool-call compressor.
- **Metadata and tags.**
  - `AddMetadataV0` and `AddMetadata`;
  - the `LitellmFilter` pipeline;
  - `LangfusePipeline`, with its per-chat trace registry.
- **Anki cards.**
  - `AnkiCards`: the shared card protocol;
  - `AnkiDeckFilter` and `AnkiDbFilter`: the two filters;
  - `AnkiDbAction` and `AnkiDeckAction`: the two actions;
  - `AnkiTool`: the Ankiconnect tool.
- **wdoc tool.** `EnvVars` is the environment-variable context manager.
  `WdocTools` covers the valve checks, the override merge and the result
  formatting.

Code that changes state step by step is imperative Dafny: classes with
`modifies` clauses, and loops with their invariants. Each method is proved
against a specification function, and the source's promises are lemmas
about that function.

Library calls are function-typed parameters. These are:

- `json.loads` (`parse`) and `json.dumps` (`dump`, `show`);
- `html.unescape` (`unescape`);
- Python's `str` (`show`, `explain`);
- the HTTP post to Ankiconnect (`post`);
- the LiteLLM model lookup (`lookup`);
- `uuid4` (`uuid`);
- base64 encoding of a package (`encode`);
- wdoc's parse and summary calls (`wdoc`);
- number formatting (`fixed`).

Upstream streams are given as sequences of lines. The Anki card files and
the process environment are objects whose fields the methods update.

Where the source does something its authors evidently did not intend,
the model keeps the code as written and states the behaviour as a proved
lemma. Examples:

- `WipClaudeCachingFilter`: the unbound `model` raises a `NameError`.
- `ToolCompressor.ReplaceEach`: the undefined `i` raises a `NameError`.
- `AnkiDeckAction.CardsBlocksNotFound`: the deck action never finds the
  `<anki_cards>` blocks its docstring speaks of.
- `WdocTools.LowerCasePrivateModeSet`: a lower-case `wdoc_private_mode`
  passes the check and then sets `WDOC_PRIVATE_MODE`.
- `HideThinkingFilter`: the result keeps the raw thought blocks.

## Model

| member | source | states |
|---|---|---|
| WarnIfLongChat.ValvesUpdated | filters/warn_if_long_chat.py:38-41 | the valve update passes exactly when soft > 2, hard > 5 and hard > soft, and a soft limit of 2 or less fails the first assertion |
| WarnIfLongChat.Inlet | filters/warn_if_long_chat.py:43-76 | with `debug` on, the user and the body are sent first as two progress statuses, even when "messages" is missing; then the body comes back unchanged; above the hard limit an error status and an exception; above the soft limit only a warning status; at or below it nothing more; a body without "messages" raises KeyError |
| WarnIfLongChat.DebugOnlyPrefixes | filters/warn_if_long_chat.py:60-62 | the `debug` valve only puts its two statuses in front and changes neither the result nor the other statuses |
| WarnIfLongChat.Bands | filters/warn_if_long_chat.py:38-76 | under accepted valves a longer chat is never treated more leniently than a shorter one (refusal and warning are monotone), and a chat within the soft limit passes silently |
| WarnIfLongChat.Outlet | filters/warn_if_long_chat.py:78-79 | the outlet is the identity |
| InfiniteChat.ValvesUpdated | filters/infinite_chat.py:32-33 | the valve update passes exactly when keep_messages >= 2 |
| InfiniteChat.Trim | filters/infinite_chat.py:51-53 | the kept messages are a suffix of the chat, and a chat within the limit is kept whole |
| InfiniteChat.TrimKeepsLast | filters/infinite_chat.py:51-53 | for keep >= 1 a longer chat keeps exactly its last keep messages, so the length becomes min(length, keep) |
| InfiniteChat.TrimOddValves | filters/infinite_chat.py:51-53 | Python slicing with keep = 0 keeps the whole chat and a negative keep drops that many leading messages |
| InfiniteChat.TrimIdempotent | filters/infinite_chat.py:51-53 | trimming an already trimmed chat changes nothing |
| InfiniteChat.Inlet | filters/infinite_chat.py:35-56 | a body without "messages" raises KeyError and sends nothing; with `debug` on, the message count is sent first; a list of messages is replaced by its trimmed suffix, with the trimming status exactly when something was cut; without that status the body is unchanged |
| InfiniteChat.Outlet | filters/infinite_chat.py:58-59 | the outlet is the identity |
| ThinkingFilter.OutletText | filters/thinking_filter/thinking_filter.py:76-89 | a last message without a thought block is left as it is |
| ThinkingFilter.OutletRemovesBlocks | filters/thinking_filter/thinking_filter.py:36-87 | when a block is found, removing it always changes the stripped text, the result is the stripped removal or, when that is empty, the stripped original, it is never empty and it only deletes characters of the original |
| ThinkingFilter.OutletStepShape | filters/thinking_filter/thinking_filter.py:76-90 | only the last message can change and the count is kept; the outlet raises exactly on an empty list or a last message without string "content" |
| ThinkingFilter.Outlet | filters/thinking_filter/thinking_filter.py:60-90 | a body without "messages" raises KeyError; otherwise the in-place writes give OutletStep's list, and an exception leaves the messages as they were; the `enable` switch is the filter's own default (line 33), so the result depends on the messages alone and never on `__user__` or its valves |
| ThinkingFilter.RewriteLast | filters/thinking_filter/thinking_filter.py:78-87 | the two in-place writes leave the last message with OutletText's content and every other message unchanged |
| DontAccumulateThoughts.Filtered | filters/DontAccumulateThoughts.py:46-79 | the filtered content is never longer than the content |
| DontAccumulateThoughts.FilteredDeletes | filters/DontAccumulateThoughts.py:46-79 | filtering only deletes characters, and content without an opening tag is only stripped |
| DontAccumulateThoughts.FilterMessage | filters/DontAccumulateThoughts.py:61-85 | non-assistant messages and empty or missing contents come back as they are; otherwise the same keys with only "content" changed, to the filtered text; non-dict messages and non-string contents raise |
| DontAccumulateThoughts.FilterAssistant | filters/DontAccumulateThoughts.py:71-85 | an assistant message with string content gets the filtered content, even an empty one, and keeps its other keys |
| DontAccumulateThoughts.FilteredMessages | filters/DontAccumulateThoughts.py:104-107 | the new list has one filtered message per message, in order |
| DontAccumulateThoughts.FilteredMessagesUnchanged | filters/DontAccumulateThoughts.py:104-109 | a list in which no message needs filtering comes back equal |
| DontAccumulateThoughts.FilterAll | filters/DontAccumulateThoughts.py:103-106 | the appending loop yields exactly `MapOk` of `FilterMessage` over the messages: every message filtered in order, or the exception of the first one that raises |
| DontAccumulateThoughts.Inlet | filters/DontAccumulateThoughts.py:87-117 | a body without "messages" is returned as it is; otherwise the list is replaced by the filtered one, or on an exception the body is returned unchanged with the error logged |
| Thoughts.OpenerLen | filters/thinking_filter/thinking_filter.py:18-19 | the start pattern "``` ?thinking" matches at a position with exactly one of its two spellings, of length 12 or 11, or not at all |
| Thoughts.FirstOpener | pipes/remove_thinking.py:58 | `start_thought.search`: the first position at or after `from` where the start pattern matches, or none |
| Thoughts.HasOpenerFirst | pipes/remove_thinking.py:58 | a text contains the start pattern exactly when the search finds it |
| Thoughts.GreedyBlock | pipes/remove_thinking.py:60-63 | the greedy `start(.*)?stop` match under DOTALL: a block from the leftmost start to the last stop after it, and no block when there is none |
| Thoughts.GreedyIsBlock | pipes/remove_thinking.py:260-263 | the text of a greedy match, taken by itself, is one whole thought block |
| Thoughts.UncutAppend | pipes/remove_thinking.py:258 | text received after the cuts is not touched when the blocks are put back |
| Thoughts.CutOne | pipes/remove_thinking.py:261-263 | taking `t[i..j]` out of the buffer and recording it at its position is undone by putting it back, and the position fits the shortened text |
| Thoughts.LedgerAppend | pipes/remove_thinking.py:258 | a delta appended to the kept text extends the upstream text by the same delta |
| Thoughts.LedgerCut | pipes/remove_thinking.py:260-264 | cutting one whole block out of the buffer records one more cut and one more removal |
| Thoughts.UncutKeeps | pipes/remove_thinking.py:258-264 | putting blocks back into a text keeps any subsequence of it a subsequence |
| Thoughts.LedgerSubsequence | pipes/remove_thinking.py:258-296 | the kept text of the account is obtained from the upstream text by deleting characters, and is all of it when nothing was removed |
| Thoughts.LazyBlock | filters/thinking_filter/thinking_filter.py:36-39 | the non-greedy `start(.*?)stop` match: from the leftmost start, optionally anchored at a line beginning, to the first stop after it, and none when there is no block |
| Thoughts.RemoveBlocks | filters/thinking_filter/thinking_filter.py:42-45 | `pattern.sub("", text)` from a position: never longer than the text it scans |
| Thoughts.RemoveBlocksUnchanged | filters/thinking_filter/thinking_filter.py:42-45 | the substitution changes the text exactly when the pattern matches somewhere |
| Thoughts.RemoveBlocksSubsequence | filters/thinking_filter/thinking_filter.py:42-45 | the substitution only deletes characters |
| Thoughts.RemoveBlocksShrinks | filters/thinking_filter/thinking_filter.py:42-45 | when a block matches, the substitution makes the text strictly shorter |
| Thoughts.MatchSurvivesStrip | filters/thinking_filter/thinking_filter.py:77-79 | a block found in the content is still found in the stripped content, which is therefore not empty |
| Thoughts.StripSubsequence | filters/thinking_filter/thinking_filter.py:78-79 | `strip()` only deletes characters |
| Spans.FirstSpan | filters/DontAccumulateThoughts.py:46 | the match of `open.*?close` under DOTALL: it starts at the leftmost `open` that a `close` follows and ends at the first `close` after it; no match when there is none |
| Spans.RemoveSpans | filters/DontAccumulateThoughts.py:79 | `regex.sub("", content)` for such a pattern: never longer than the text it scans |
| Spans.RemoveSpansUnchanged | filters/DontAccumulateThoughts.py:79 | the substitution leaves the text unchanged exactly when the pattern matches nowhere |
| Spans.RemoveSpansSubsequence | filters/DontAccumulateThoughts.py:79 | the substitution only deletes characters |
| Spans.NoOpenNoSpan | filters/anki_db_creator.py:342 | a text without the opening delimiter (compared without case under IGNORECASE) is left as it is |
| Spans.FindAllEmpty | actions/anki_db_creator.py:74 | `re.findall` finds nothing exactly when `re.sub` would change nothing |
| Spans.Matches | filters/tool_compressor.py:48 | `re.findall` of the whole match: every match is at least as long as the two delimiters, and there is none exactly when no span is found |
| Spans.MatchesAreSpans | filters/tool_compressor.py:48 | every match found opens with `open`, closes with `close` and holds no `close` before its end |
| Spans.SpanMatchesItself | filters/tool_compressor.py:48 | a text that is one span is found as exactly one match, itself |
| Spans.LastSpanRemoved | filters/DontAccumulateThoughts.py:79 | removing a text that ends with its only span leaves the text before it |
| ChunkParsing.Payload | pipes/hide_thinking.py:373-374 | the "data: " prefix, when present, is removed and nothing else changes |
| ChunkParsing.UpstreamError | pipes/hide_thinking.py:382-387 | an upstream error is reported only for a dict holding "error"; a dict without it has none |
| ChunkParsing.ChoiceContent | pipes/hide_thinking.py:389-394 | `parsed_line["choices"][0]["delta"].get("content", "")`: a TypeError for a non-dict, a KeyError for a missing "choices", an IndexError for an empty list |
| ChunkParsing.ChoiceContentOfCompletion | pipes/hide_thinking.py:389-390 | a well-formed chunk yields its text and reports no upstream error |
| ChunkParsing.ChoiceContentMissingPart | pipes/hide_thinking.py:391-394 | a chunk whose choice lacks the expected part raises the KeyError naming it |
| ChunkParsing.Classify | pipes/hide_thinking.py:382-398 | an upstream error message raises "Error"; truthy content is yielded; empty content skips the line; the stream never ends here |
| ChunkParsing.ParseChunk | pipes/hide_thinking.py:371-398 | the chunk stops the stream exactly when its stripped payload is "[DONE]"; otherwise a payload that is not JSON is skipped and a parsed one is classified |
| ChunkParsing.ParseFramedChunk | pipes/hide_thinking.py:371-398 | a `data: ` line framing the JSON of a content chunk yields that content |
| ChunkParsing.DoneMarkerStops | pipes/hide_thinking.py:375-376 | "[DONE]" stops the stream with or without the "data: " prefix |
| ChunkParsing.UpstreamErrorRaises | pipes/hide_thinking.py:382-387 | a chunk whose "error" dict holds a truthy "message" raises, whatever else it holds |
| RemoveThinkingPipe.HoldBack | pipes/remove_thinking.py:229 | `int(1.5 * len(start_thought))`: the integer part of one and a half times the valve's length |
| RemoveThinkingPipe.DefaultHoldBack | pipes/remove_thinking.py:229 | with the default start valve, 19 characters are held back |
| RemoveThinkingPipe.FlushNeverSplitsOpener | pipes/remove_thinking.py:269-277 | text yielded from a buffer without an opener, keeping at least an opener's length minus one, never ends inside an opener that later text completes |
| RemoveThinkingPipe.CutGreedy | pipes/remove_thinking.py:260-263 | the buffer is left as it is when the greedy pattern does not match, and loses characters, and only loses them, when it does |
| RemoveThinkingPipe.HasOpenerNow | pipes/remove_thinking.py:269 | `start_thought.search(buffer)` finds an opener exactly when the buffer holds one |
| RemoveThinkingPipe.AbsorbStep | pipes/remove_thinking.py:258-264 | the weak form of the account: what has been yielded plus the buffer stays a subsequence of everything received, and equals it while no block was removed |
| RemoveThinkingPipe.CutOf | pipes/remove_thinking.py:260-263 | the cut the greedy match adds to the ledger: none exactly when there is no match, else the matched text at its position after the yielded text |
| RemoveThinkingPipe.GreedyCut | pipes/remove_thinking.py:260-263 | with a match at `i..j`, the buffer becomes `t[..i] + t[j..]` and the cut records `t[i..j]` at `i` past the yielded text |
| RemoveThinkingPipe.AbsorbCuts | pipes/remove_thinking.py:258-264 | the exact account: if the upstream text is the yielded text and the buffer with the cuts put back, it still is after appending the delta and cutting the greedy block, one more whole block in the ledger |
| RemoveThinkingPipe.AbsorbKeeps | pipes/remove_thinking.py:258-265 | absorbing a delta keeps the stripper's invariant, with one more removal and one "Removed N" status per block found |
| RemoveThinkingPipe.DrainKeeps | pipes/remove_thinking.py:279-292 | yielding the last buffer, cut once, keeps the invariant with an empty buffer |
| RemoveThinkingPipe.FinishKeeps | pipes/remove_thinking.py:294-296 | reporting "never found" exactly when no block was removed keeps the invariant at the end of the stream |
| RemoveThinkingPipe.ThoughtStripper.constructor | pipes/remove_thinking.py:228-232 | an empty buffer, nothing discarded and no block removed |
| RemoveThinkingPipe.ThoughtStripper.Absorb | pipes/remove_thinking.py:258-265 | appends the delta, removes the greedy block when there is one, counts it, records it as discarded, reports "Removed N thought block" and adds the block to the ledger at its place, so that `Valid` (upstream text = yielded text and buffer with the blocks put back) is kept |
| RemoveThinkingPipe.ThoughtStripper.Flush | pipes/remove_thinking.py:267-277 | with an opener in the buffer it waits and says so; otherwise it yields all but the held-back tail |
| RemoveThinkingPipe.ThoughtStripper.Feed | pipes/remove_thinking.py:258-277 | one content delta: absorbing then flushing; afterwards the buffer holds an opener and nothing was yielded, or it is no longer than the hold-back |
| RemoveThinkingPipe.ThoughtStripper.Take | pipes/remove_thinking.py:234-257 | one line: "[DONE]" stops, an upstream error or malformed chunk is raised, JSON-free and empty lines are skipped, everything else is fed |
| RemoveThinkingPipe.ThoughtStripper.Drain | pipes/remove_thinking.py:279-292 | the rest of the buffer is yielded with its greedy block removed, which goes into the ledger; an unfinished opener is reported as never finished |
| RemoveThinkingPipe.ThoughtStripper.Finish | pipes/remove_thinking.py:279-296 | drains the buffer and reports "Thought block never found" exactly when no block was removed |
| RemoveThinkingPipe.WaitEventsSpec | pipes/remove_thinking.py:269-271 | the waiting status is sent exactly when the buffer holds an opener, and names the next block's number |
| RemoveThinkingPipe.FinishEventsSpec | pipes/remove_thinking.py:279-296 | "never found" exactly when no block was removed; "never finished" exactly when the rest holds an opener but no block |
| RemoveThinkingPipe.EventsAfterFinish | pipes/remove_thinking.py:279-296 | the statuses of draining then of the final check are, together, `FinishEvents` |
| RemoveThinkingPipe.DrainEventsSpec | pipes/remove_thinking.py:279-292 | draining sends at most one status and never "never found" |
| RemoveThinkingPipe.Chunks | pipes/remove_thinking.py:238-257 | one classified chunk per line |
| RemoveThinkingPipe.Consume | pipes/remove_thinking.py:233-277 | the loop over the lines: the stripper has received exactly the accepted content, and the loop's error is the first raising line's |
| RemoveThinkingPipe.StreamStripped | pipes/remove_thinking.py:218-311 | the accepted upstream text is exactly the streamed text with the `cuts` put back, each a whole thought block; "never found" is reported exactly when nothing was cut, and then the streamed text is the upstream text; the error is the loop's and the last status; the status is cleared exactly when debug is off and no failure was reported |
| RemoveThinkingPipe.Report | pipes/remove_thinking.py:294-311 | after a normal end the output is the stripper's, and the upstream text is it with the ledger's blocks put back; on an error the discarded text is yielded after the output and the error is the last status |
| RemoveThinkingPipe.Stream | pipes/remove_thinking.py:217-296 | with thought removal off the lines are yielded as they are; with it on, the accepted text is the yielded text with whole thought blocks put back where they were cut, and the rest as `StreamStripped` |
| RemoveThinkingPipe.CheckApiKey | pipes/remove_thinking.py:74-80 | the key is accepted exactly when it is a string that is not blank; otherwise the matching assertion fails |
| RemoveThinkingPipe.DefaultValvesRefused | pipes/remove_thinking.py:27-30 | the default valves (no key) are refused |
| RemoveThinkingPipe.WithModelUser | pipes/remove_thinking.py:163-179 | sets "model"; replaces "user" when absent or contained in the generated user; a non-string user raises TypeError; every other key is kept |
| RemoveThinkingPipe.MoveMetadata | pipes/remove_thinking.py:181-184 | "metadata" moves to "custom_metadata"; both present fails the assertion; other keys are kept |
| RemoveThinkingPipe.TagMetadata | pipes/remove_thinking.py:187-192 | a title request's metadata gets the title tag appended to its tags, which must be a list |
| RemoveThinkingPipe.TagTitle | pipes/remove_thinking.py:186-194 | a title request without metadata gets one holding only the title tag; a non-dict one raises TypeError |
| RemoveThinkingPipe.SessionError | pipes/remove_thinking.py:198-203 | for a `custom_metadata` that is not a dict: a KeyError for "chat_id" exactly when the `in` test for "session_id" runs and finds none and the body has no chat id; a TypeError in every other case (the membership test on a scalar, the item read when "session_id" is found, the item assignment otherwise) |
| RemoveThinkingPipe.SessionIdHeldRaises | pipes/remove_thinking.py:198-201 | a list or string holding "session_id" raises TypeError when the item is read, whether or not the body has a chat id |
| RemoveThinkingPipe.WithSession | pipes/remove_thinking.py:197-203 | the metadata's "session_id" becomes the chat id; a body without "custom_metadata" raises KeyError; other keys are kept |
| RemoveThinkingPipe.BuildPayload | pipes/remove_thinking.py:158-203 | a body without "stream" raises KeyError |
| RemoveThinkingPipe.BuildPayloadFields | pipes/remove_thinking.py:163-184 | the payload holds no "metadata" and its model and user are the ones chosen for the request |
| RemoveThinkingPipe.BuildPayloadKeeps | pipes/remove_thinking.py:158 | every other key of the body is carried over unchanged |
| RemoveThinkingPipe.BuildPayloadMetadata | pipes/remove_thinking.py:181-203 | the payload's metadata is the body's, title-tagged for a title request and carrying the chat id as session |
| RemoveThinkingPipe.BuildPayloadFailures | pipes/remove_thinking.py:181-200 | a body with "metadata" always fails, and so does a title request whose body has no "custom_metadata": the session step reads the body's own "custom_metadata" |
| RemoveThinkingPipe.SessionStep | pipes/remove_thinking.py:197-203 | setting the session id on the tagged metadata gives the session-tagged metadata |
| RemoveThinkingPipe.TitleContentOfCompletion | pipes/remove_thinking.py:300-301 | a whole completion yields its text, a streamed chunk raises KeyError for "message" |
| RemoveThinkingPipe.Serve | pipes/remove_thinking.py:205-311 | for a given payload or payload error and title flag: a refused key raises before any status and posts nothing; a payload error is the only status and is raised; otherwise the payload is posted, a title request returns the message content, a chat request streams with or without thought removal, with the exact account of removed blocks; a raised error is the last status |
| RemoveThinkingPipe.Pipe | pipes/remove_thinking.py:91-312 | the payload is `BuildPayload` of the body and the title flag `IsTitle` of it; a refused key raises before any status; a failing payload is reported and raised; otherwise that payload is what is posted, a title request returns the message content and a chat request streams with or without thought removal; a raised error is the last status |
| HideRewrap.SubOpenersSkip | pipes/hide_thinking.py:301 | `start_thought.sub` copies text without a backtick unchanged |
| HideRewrap.RewrapOpens | pipes/hide_thinking.py:299-302 | a section that starts with an opener is yielded starting with the `<details>` header |
| HideRewrap.RewrapBlock | pipes/hide_thinking.py:299-302 | a thought without backticks in it is yielded as exactly one `<details>` section holding the thought |
| HideRewrap.SubOpenersOfBlock | pipes/hide_thinking.py:301 | replacing the openers of such a block replaces only its opener |
| HideRewrap.SubOpenersOfFence | pipes/hide_thinking.py:301-302 | the closing fence holds no opener |
| HideThinkingPipe.Section | pipes/hide_thinking.py:297-299 | `match.group()`: present exactly when the greedy pattern matches, and the matched text |
| HideThinkingPipe.SectionOpens | pipes/hide_thinking.py:297-299 | every match starts with an opener |
| HideThinkingPipe.ReplaceCutsGreedy | pipes/hide_thinking.py:300 | `buffer.replace(section, "")` deletes exactly the matched text: no other copy of it exists in the buffer |
| HideThinkingPipe.CopyIsBlock | pipes/hide_thinking.py:300 | a copy of a block elsewhere in the buffer is itself a block |
| HideThinkingPipe.LaterCopyExtends | pipes/hide_thinking.py:300 | a copy after the block would give a longer greedy match, so there is none |
| HideStatus.DedupSpec | pipes/hide_thinking.py:118-140 | the statuses sent never repeat the previous one, are drawn from those requested, end on the same message, and are all of them when none repeats |
| HideStatus.DedupAppend | pipes/hide_thinking.py:118-140 | requesting two runs of statuses one after the other sends what each would send, the second starting from the first's last message |
| HideStatus.NoRepeatsAppend | pipes/hide_thinking.py:118-140 | two repeat-free runs joined at a fresh message are repeat-free |
| HideStatus.DedupFirst | pipes/hide_thinking.py:118-125 | the first status sent is the first requested |
| HideStatus.StatusRequest | pipes/hide_thinking.py:120-140 | one more request keeps the status invariant; an error that is sent keeps the status from being cleared |
| HideStatus.StatusLast | pipes/hide_thinking.py:364-366 | a final message not sent before is always sent |
| HideThinkingPipe.StreamHide | pipes/hide_thinking.py:297-306 | after a delta completing a block, the rewrapped section is yielded and the buffer loses it |
| HideThinkingPipe.SectionCut | pipes/hide_thinking.py:297-300 | the block the match cuts into the ledger is the section yielded |
| HideThinkingPipe.StreamHold | pipes/hide_thinking.py:295-297 | a delta that completes no block is only appended |
| HideThinkingPipe.StreamFlush | pipes/hide_thinking.py:317-321 | yielding a prefix of the buffer keeps the stream invariant |
| HidePieces.AccountedFlush | pipes/hide_thinking.py:317-321 | yielding a prefix of the buffer as kept text keeps the account: the kept text and the buffer still rebuild the upstream text with the cuts put back |
| HidePieces.AccountedHold | pipes/hide_thinking.py:295 | a delta only appended to the buffer extends the upstream text by that delta |
| HidePieces.ShowsAppend | pipes/hide_thinking.py:303-321 | one more piece yields one more fragment, its `Show` |
| HideThinkingPipe.StreamDrainHide | pipes/hide_thinking.py:324-336 | the last buffer yielded as its rewrapped section, then the rest |
| HideThinkingPipe.PipeCall.constructor | pipes/hide_thinking.py:116-118 | no status sent, the last message empty, clearing decided by the debug valve, an empty buffer |
| HideThinkingPipe.PipeCall.Send | pipes/hide_thinking.py:120-140 | a status is sent unless it equals the last one; a sent error keeps the status from being cleared |
| HideThinkingPipe.PipeCall.Fail | pipes/hide_thinking.py:364-366 | the error status is always sent, and the status is not cleared afterwards |
| HideThinkingPipe.PipeCall.ClearStatus | pipes/hide_thinking.py:360-361 | `succ("")` is requested when clearing is on, and reaches the chat exactly when debug is off, no failure was sent and something was sent before |
| HideThinkingPipe.PipeCall.Absorb | pipes/hide_thinking.py:295-306 | the delta is appended; on a match the section is cut out of the buffer, yielded rewrapped, counted, reported and added to the ledger at its place, keeping the stream invariant |
| HideThinkingPipe.PipeCall.AbsorbHide | pipes/hide_thinking.py:297-305 | the matched section is cut out of the buffer and yielded |
| HideThinkingPipe.PipeCall.AbsorbHold | pipes/hide_thinking.py:295-297 | without a match the buffer keeps the delta |
| HideThinkingPipe.PipeCall.Flush | pipes/hide_thinking.py:308-321 | with an open thought it waits and says so; otherwise it yields all but the held-back tail |
| HideThinkingPipe.PipeCall.Release | pipes/hide_thinking.py:317-321 | without an open thought the buffer is left no longer than the hold-back |
| HideThinkingPipe.PipeCall.Cut | pipes/hide_thinking.py:318-321 | the first characters of the buffer are yielded and removed from it |
| HideThinkingPipe.PipeCall.Feed | pipes/hide_thinking.py:295-321 | one delta: absorbing then flushing; afterwards a thought is open or the buffer is no longer than the hold-back |
| HideThinkingPipe.PipeCall.Take | pipes/hide_thinking.py:281-295 | one line: "[DONE]" stops, any other exception is raised, empty and JSON-free lines are skipped, a delta is fed |
| HideThinkingPipe.PipeCall.Drain | pipes/hide_thinking.py:323-345 | the last buffer is yielded, its matched section rewrapped first; an unfinished opener is reported |
| HideThinkingPipe.PipeCall.HideAll | pipes/hide_thinking.py:324-335 | the rewrapped section, then the rest of the buffer |
| HideThinkingPipe.PipeCall.DrainKeep | pipes/hide_thinking.py:338-345 | without a match the buffer is yielded as it is |
| HideThinkingPipe.PipeCall.Finish | pipes/hide_thinking.py:323-345 | the remaining buffer is drained and the buffer is empty afterwards |
| HideThinkingPipe.PipeCall.Conclude | pipes/hide_thinking.py:347-349 | "Thought block never found" is requested exactly when no block was removed |
| HideThinkingPipe.SectionPieces | pipes/hide_thinking.py:297-304 | at most one section is yielded per delta |
| HidePieces.PiecesAppend | pipes/hide_thinking.py:303-304 | yielding one more piece adds its kept text and counts its section |
| HideThinkingPipe.ConcatShows | pipes/hide_thinking.py:308-345 | a stream in which no section was found yields exactly its text |
| HideThinkingPipe.CanBeCachedNow | pipes/hide_thinking.py:164-168 | the loop over the four cache words decides whether any occurs in the lower-cased model name |
| HideThinkingPipe.AnyInfixAt | pipes/hide_thinking.py:165-167 | a word of the list occurring in the name makes the `any` true |
| HideThinkingPipe.CachedIgnoresCase | pipes/hide_thinking.py:166 | the decision does not depend on the case of the model name |
| HideThinkingPipe.CachedWhenLowerWordOccurs | pipes/hide_thinking.py:165-167 | a model name containing a cache word is cached |
| HideThinkingPipe.RawChunk | pipes/hide_thinking.py:260-269 | in the raw mode any exception of `parse_chunk` other than DONE and CONTINUE becomes "Error when parsing chunk"; every other outcome is kept |
| HideThinkingPipe.RawChunks | pipes/hide_thinking.py:259-261 | one chunk per line |
| HideThinkingPipe.PassThrough | pipes/hide_thinking.py:259-271 | every accepted delta is yielded as it is, up to "[DONE]" or the first error |
| HideThinkingPipe.Consume | pipes/hide_thinking.py:281-321 | the hiding loop: the call has received exactly the accepted content and the loop's error is the first raising line's |
| HideThinkingPipe.CacheIf | pipes/hide_thinking.py:169-193 | the messages array, rewritten in place, ends as the caching step says, or the step's error is returned |
| HideThinkingPipe.Outgoing | pipes/hide_thinking.py:169-201 | the body the payload is copied from: its "messages" is the rewritten list when caching applies, and every other key is the body's |
| HideThinkingPipe.Prepared | pipes/hide_thinking.py:153-237 | a body without "stream" raises KeyError "stream"; with caching on and no "messages", KeyError "messages"; on success the messages are those the caching step leaves |
| HideThinkingPipe.PreparedPosts | pipes/hide_thinking.py:169-201 | the payload is copied after the rewrite: its "messages" is the rewritten list when caching applies, the body's own otherwise |
| HideThinkingPipe.Prepare | pipes/hide_thinking.py:153-237 | the payload and the rewritten messages are those of `Prepared`, or its error; the payload's "messages" is the array as left in place when caching applies, the body's own list otherwise; a body without "stream" leaves the messages untouched |
| HideThinkingPipe.TitleAnswer | pipes/hide_thinking.py:351-358 | the title answer is the message content, which must be a non-empty string, else "No text to show" fails; a missing message raises |
| HideThinkingPipe.AnswerTitle | pipes/hide_thinking.py:351-358 | the title branch yields and raises what `TitleAnswer` says |
| HideThinkingPipe.AnswerRaw | pipes/hide_thinking.py:257-274 | the raw branch yields every accepted delta |
| HideThinkingPipe.HiddenStream | pipes/hide_thinking.py:276-358 | the fragments yielded are `Shows` of the pieces: kept text, or a rewrapped section that starts with an opener; the accepted upstream text is exactly the kept text with the `cuts` put back, each a whole thought block, and the cut blocks are the sections in order; so the kept text is a subsequence of it, and all of it when no section was found; an exception of the loop is raised, otherwise the only one is "No text to show" for an empty answer |
| HideThinkingPipe.AnswerHidden | pipes/hide_thinking.py:276-358 | after "Receiving chunks", `HiddenStream` over the lines' chunks, with the same exact account |
| HideThinkingPipe.HiddenEnd | pipes/hide_thinking.py:323-358 | a stream that raised nothing ends rewrapped, and fails exactly when nothing was yielded |
| HideThinkingPipe.HiddenDone | pipes/hide_thinking.py:358 | the end-of-stream check fails exactly when nothing was yielded |
| HideThinkingPipe.HiddenFailed | pipes/hide_thinking.py:364-369 | an error raised in the loop is the pipe's error |
| HideThinkingPipe.Answer | pipes/hide_thinking.py:239-362 | after "Waiting for response": the title, raw or hiding branch as above; the status is cleared exactly when debug is off and no failure was sent; an error is the last status |
| HideThinkingPipe.Close | pipes/hide_thinking.py:360-366 | the final status: cleared on success as above, or the error message last |
| HideThinkingPipe.Pipe | pipes/hide_thinking.py:95-369 | a refused key is yielded as the error text and raised, with no status, nothing posted and the messages untouched; otherwise no status repeats, an error is the last status, a request is posted exactly when preparation succeeds, with the messages rewritten in place and the posted "messages" the rewritten list when caching applies (and, when the body's list is the array, the array as it ends in every case); a failing preparation is the only status and yields nothing, and a posted request is answered as `Answered` says, the hiding mode with its exact account |
| CostTrackingPipe.KeysSource | pipes/costtrackingpipe/costtrackingpipe.py:117-123 | the valve when set, else the COSTTRACKINGPIPE_API_KEYS variable when the environment has it, else nothing |
| CostTrackingPipe.LoadApiKeys | pipes/costtrackingpipe/costtrackingpipe.py:116-135 | the key table loads exactly when its text exists and decodes to a dict holding "default"; no text fails the environment assertion; bad JSON or a non-dict fails the cast, a table without "default" its own assertion |
| CostTrackingPipe.DefaultRequired | pipes/costtrackingpipe/costtrackingpipe.py:135 | a table without a "default" entry is refused even when it holds the caller's key |
| CostTrackingPipe.ChooseKeySpec | pipes/costtrackingpipe/costtrackingpipe.py:166-182 | the key used is the user's own exactly when matching is enabled and the table has the user, else the default; one progress notice names the choice, none when matching is on but the user is absent |
| CostTrackingPipe.CostPayload | pipes/costtrackingpipe/costtrackingpipe.py:183-191 | the payload is the body with "model" and "user" set; every other key is kept |
| CostTrackingPipe.CutFirst | pipes/costtrackingpipe/costtrackingpipe.py:211-244 | the first lazy block is cut out: the buffer is unchanged without one, and with one it loses characters, and only loses them |
| CostTrackingPipe.LazyBlockStable | pipes/costtrackingpipe/costtrackingpipe.py:240-241 | once the buffer holds a complete block, later text does not move the first match |
| CostTrackingPipe.LazyBlockUnique | pipes/costtrackingpipe/costtrackingpipe.py:211 | the lazy match is the leftmost block, ended at its first fence |
| CostTrackingPipe.EarlierBlock | pipes/costtrackingpipe/costtrackingpipe.py:241 | a block of the longer text starting before a block of the buffer is a block of the buffer |
| CostTrackingPipe.NoEarlierBlock | pipes/costtrackingpipe/costtrackingpipe.py:241 | no block of the extended buffer starts before the first match |
| CostTrackingPipe.NoShorterBlock | pipes/costtrackingpipe/costtrackingpipe.py:241 | no shorter block of the extended buffer starts at the first match |
| CostTrackingPipe.BlockExtend | pipes/costtrackingpipe/costtrackingpipe.py:240-241 | a block stays a block when text is appended |
| CostTrackingPipe.BlockWithin | pipes/costtrackingpipe/costtrackingpipe.py:240-241 | a block that ends inside the buffer is a block of the buffer |
| CostTrackingPipe.CutFirstStable | pipes/costtrackingpipe/costtrackingpipe.py:237-247 | cutting the first block then appending is appending then cutting, once the block closed |
| CostTrackingPipe.FirstBlockStripper.constructor | pipes/costtrackingpipe/costtrackingpipe.py:210-212 | an empty buffer, nothing yielded, no block removed |
| CostTrackingPipe.FirstBlockStripper.Feed | pipes/costtrackingpipe/costtrackingpipe.py:237-249 | after the removal a delta is yielded unchanged; before it, a non-string delta raises TypeError and a string is appended, the removal happening exactly when the buffer then holds a block |
| CostTrackingPipe.FirstBlockStripper.Append | pipes/costtrackingpipe/costtrackingpipe.py:240-249 | `buffer += content`: a block is removed exactly when the appended buffer holds one |
| CostTrackingPipe.FirstBlockStripper.Finish | pipes/costtrackingpipe/costtrackingpipe.py:251-258 | without a removal the whole buffer is yielded with "Thought block never found"; the whole yielded text is the received text with its first block cut |
| CostTrackingPipe.AppendText | pipes/costtrackingpipe/costtrackingpipe.py:240 | appending a string delta appends its text |
| CostTrackingPipe.FinishText | pipes/costtrackingpipe/costtrackingpipe.py:237-258 | the whole yielded text is the received text with its first block cut, whether or not a block was removed |
| CostTrackingPipe.CostChunk | pipes/costtrackingpipe/costtrackingpipe.py:222-235 | empty lines and undecodable ones are skipped, "[DONE]" stops, the delta content is read with no check for an upstream error |
| CostTrackingPipe.CostChunks | pipes/costtrackingpipe/costtrackingpipe.py:214-235 | one chunk per line |
| CostTrackingPipe.UpstreamErrorIgnored | pipes/costtrackingpipe/costtrackingpipe.py:228-235 | a chunk carrying both an upstream error and a delta is read as the delta here, while the other pipes raise the error |
| CostTrackingPipe.ErrorChunkRead | pipes/costtrackingpipe/costtrackingpipe.py:233 | such a chunk holds both an upstream error and its delta content |
| CostTrackingPipe.LoopStart | pipes/costtrackingpipe/costtrackingpipe.py:214 | the loop invariant holds before the first line |
| CostTrackingPipe.LoopStep | pipes/costtrackingpipe/costtrackingpipe.py:214-249 | one line keeps the loop invariant |
| CostTrackingPipe.LoopEndStopped | pipes/costtrackingpipe/costtrackingpipe.py:214-227 | at the end of the lines, at "[DONE]" or at an error, the deltas delivered are those handed over |
| CostTrackingPipe.LoopEndFeed | pipes/costtrackingpipe/costtrackingpipe.py:237-240 | a failed feed leaves a prefix of the delivery handed over |
| CostTrackingPipe.Consume | pipes/costtrackingpipe/costtrackingpipe.py:214-249 | the loop hands over exactly the delivered deltas, or stops with a TypeError at the first non-string delta before the removal |
| CostTrackingPipe.RawLines | pipes/costtrackingpipe/costtrackingpipe.py:207-208 | every upstream line is yielded unparsed |
| CostTrackingPipe.Stripped | pipes/costtrackingpipe/costtrackingpipe.py:210-258 | the yielded text is the delivered text with its first block cut; "never found" is reported exactly when it holds no block; the status is not cleared here; an error is the last status |
| CostTrackingPipe.NeverFoundIff | pipes/costtrackingpipe/costtrackingpipe.py:251-253 | no block was removed exactly when the whole delivered text holds none |
| CostTrackingPipe.AllStrSuffix | pipes/costtrackingpipe/costtrackingpipe.py:237-238 | a run of string deltas has string deltas after any cut |
| CostTrackingPipe.Stream | pipes/costtrackingpipe/costtrackingpipe.py:204-258 | "Receiving chunks" first; with removal or matching off the lines pass through raw and nothing else is reported; otherwise as `Stripped` |
| CostTrackingPipe.TitleReply | pipes/costtrackingpipe/costtrackingpipe.py:260-264 | a failed response is the error; otherwise the message content of the whole response |
| CostTrackingPipe.Progress | pipes/costtrackingpipe/costtrackingpipe.py:169-176 | one progress status per notice, in order |
| CostTrackingPipe.Respond | pipes/costtrackingpipe/costtrackingpipe.py:204-272 | the streamed or the whole answer, the final clearing (exactly when debug is off, skipped by the raw pass-through), and an error as the last status |
| CostTrackingPipe.RespondStream | pipes/costtrackingpipe/costtrackingpipe.py:204-258 | the streaming branch of `Respond` |
| CostTrackingPipe.RespondTitle | pipes/costtrackingpipe/costtrackingpipe.py:260-268 | the title branch of `Respond`: "Returning directly" first |
| CostTrackingPipe.NotInParts | pipes/costtrackingpipe/costtrackingpipe.py:266-267 | a status absent from both parts of a run is absent from it |
| CostTrackingPipe.Forward | pipes/costtrackingpipe/costtrackingpipe.py:183-272 | a body without "stream" raises KeyError and posts nothing; otherwise the payload is posted with the model for the request kind after "Waiting for response" |
| CostTrackingPipe.Pipe | pipes/costtrackingpipe/costtrackingpipe.py:106-272 | a key table that fails to load raises before any status; otherwise "Start", the key-choice notice, then the forwarded request, with the chosen key |
| CostTrackingPipe.ClearedOnlyByAnswer | pipes/costtrackingpipe/costtrackingpipe.py:166-176 | the statuses before the answer never clear the status line |
| HideThinkingFilter.ConvertedEnd | filters/hide_thinking.py:42 | the end of `.*?</details>` without DOTALL: the first closing tag, with no newline before it |
| HideThinkingFilter.ConvertedFrom | filters/hide_thinking.py:42 | a converted block at a position: "<details>", whitespace, the summary, then the rest of the line up to "</details>" |
| HideThinkingFilter.ConvertedMatch | filters/hide_thinking.py:42-47 | `converted_pattern.search`: the leftmost converted block, or none |
| HideThinkingFilter.RemoveConverted | filters/hide_thinking.py:52 | `converted_pattern.sub("", text)`: never longer than the text |
| HideThinkingFilter.RemoveConvertedUnchanged | filters/hide_thinking.py:52 | the substitution changes the text exactly when a converted block is found |
| HideThinkingFilter.RemoveConvertedSubsequence | filters/hide_thinking.py:52 | the substitution only deletes characters |
| HideThinkingFilter.RemoveThought | filters/hide_thinking.py:45-54 | a text with no thought of either kind comes back as it is; otherwise the result, when no assertion fails, is the text without its converted blocks, stripped, and never empty |
| HideThinkingFilter.EmptyTextUnreachable | filters/hide_thinking.py:49 | the "Received empty text" assertion never fails |
| HideThinkingFilter.ThoughtNotBlank | filters/hide_thinking.py:47-49 | a text holding a thought is not blank |
| HideThinkingFilter.RemoveThoughtSubsequence | filters/hide_thinking.py:45-54 | `remove_thought` only deletes characters |
| HideThinkingFilter.RawThoughtsKept | filters/hide_thinking.py:50-54 | a text with a raw thought but no converted block comes back only stripped, the raw thought still in it |
| HideThinkingFilter.OnlyThoughtFails | filters/hide_thinking.py:50-51 | a text that is nothing but a raw thought fails the step-1 assertion |
| HideThinkingFilter.InletText | filters/hide_thinking.py:74-78 | `remove_thought` of a JSON value: only a string succeeds, with its rewritten text |
| HideThinkingFilter.RewriteField | filters/hide_thinking.py:74-78 | `v[key] = remove_thought(v[key])`: only that key changes, and a missing key or a failing rewrite raises |
| HideThinkingFilter.InletMessage | filters/hide_thinking.py:69-78 | a rewritten dict message keeps every key but "content" |
| HideThinkingFilter.PlainMessageUnchanged | filters/hide_thinking.py:47-78 | a message whose string content holds no thought is left exactly as it is |
| HideThinkingFilter.InletOnStringContent | filters/hide_thinking.py:52-78 | a string content with a thought becomes the text without its converted blocks, stripped; a raw thought alone survives the inlet |
| HideThinkingFilter.RewriteMessage | filters/hide_thinking.py:70-78 | one message is rewritten in place as `InletMessage` says, and no other; on an exception it is as it was or only its first items are rewritten |
| HideThinkingFilter.RewriteList | filters/hide_thinking.py:71-76 | a list content is rewritten item by item in place |
| HideThinkingFilter.Inlet | filters/hide_thinking.py:67-79 | a body without "messages" raises KeyError; otherwise every message, whatever its role, is rewritten in place; on an exception the messages before the failing one are rewritten, those after it untouched |
| HideThinkingFilter.OutletText | filters/hide_thinking.py:101-112 | without a raw thought the last content is left as it is |
| HideThinkingFilter.OutletResult | filters/hide_thinking.py:102-112 | with one, the outlet writes the content as it was or the text without its converted blocks, never the empty text, so the fallback is never taken |
| HideThinkingFilter.OutletKeepsRawThoughts | filters/hide_thinking.py:102-109 | without converted blocks the outlet leaves the content alone, raw thought included |
| HideThinkingFilter.OutletRaisesOnOnlyThought | filters/hide_thinking.py:104 | a reply that is nothing but a thought makes the outlet raise |
| HideThinkingFilter.OutletStep | filters/hide_thinking.py:101-115 | only the last message can change, and the list keeps its length |
| HideThinkingFilter.OutletStepAt | filters/hide_thinking.py:101-111 | for a dict last message with string content, its content becomes the outlet text, or the assertion is raised |
| HideThinkingFilter.Outlet | filters/hide_thinking.py:85-115 | a None `__user__` raises TypeError and one without "valves" KeyError, before anything else; disabled, nothing changes; enabled, a body without "messages" raises KeyError, and otherwise the messages end as `OutletStep` says, an exception leaving them untouched |
| HideThinkingFilter.OutletMessages | filters/hide_thinking.py:101-115 | exactly `OutletStep` of the messages: an empty list raises IndexError, a missing content or a non-string content raises, otherwise only the last message's content is replaced |
| HideThinkingFilter.NewContent | filters/hide_thinking.py:101-112 | the text the outlet writes, none when the content stays, or the exception raised, each as `OutletText` says |
| CombineUserMessages.TextValues | filters/combine_user_messages.py:69-72 | the "text" values of the text items, in order: never more of them than items |
| CombineUserMessages.TextValuesNone | filters/combine_user_messages.py:69-73 | there are no text values exactly when no item is a dict of type "text" (so the join gives "") |
| CombineUserMessages.CollectTextValues | filters/combine_user_messages.py:69-72 | the loop appends exactly the text items' "text" values (default ""), in order |
| CombineUserMessages.ContentText | filters/combine_user_messages.py:64-74 | a string is its own text; a list gives its text items' texts joined by a space, failing when one is not a string; anything else gives "" |
| CombineUserMessages.ContentTextOfList | filters/combine_user_messages.py:68-73 | a list without text items gives "", and one text item gives its text |
| CombineUserMessages.ExtractContentText | filters/combine_user_messages.py:64-74 | the method computes `ContentText`, whose properties are the rows above |
| CombineUserMessages.Media | filters/combine_user_messages.py:81-85 | the file and image items, in order: never more of them than items |
| CombineUserMessages.MediaSelects | filters/combine_user_messages.py:81-84 | an item is among the media exactly when it is in the list and is a dict of type "image_url" or "file" |
| CombineUserMessages.MediaConcat | filters/combine_user_messages.py:109 | the media of joined contents are the joined media |
| CombineUserMessages.ContentMedia | filters/combine_user_messages.py:76-86 | only a list content holds media |
| CombineUserMessages.ExtractFilesAndImages | filters/combine_user_messages.py:76-86 | the loop computes `ContentMedia` |
| CombineUserMessages.Step | filters/combine_user_messages.py:94-110 | one message: it must be a dict; a system message is kept; a user message's text must be readable |
| CombineUserMessages.GoodGatheredExtend | filters/combine_user_messages.py:103-109 | the gathered texts stay stripped and non-empty |
| CombineUserMessages.StepKeepsGood | filters/combine_user_messages.py:94-110 | one message keeps the gathered texts stripped and non-empty |
| CombineUserMessages.Gather | filters/combine_user_messages.py:90-110 | the loop over the messages gathers only stripped, non-empty texts and only image and file items; which ones, in chat order, is `GatherCollects` |
| CombineUserMessages.UserText | filters/combine_user_messages.py:100-105 | a message contributes at most one text, only when it is a user message, and never a blank one |
| CombineUserMessages.UserItems | filters/combine_user_messages.py:100-109 | only a user message contributes media |
| CombineUserMessages.GatherCollects | filters/combine_user_messages.py:94-110 | the gathered texts are exactly the stripped, non-blank texts of the user messages and the gathered media exactly their image and file items, both in chat order |
| CombineUserMessages.GatherErrorLasts | filters/combine_user_messages.py:94-110 | an exception raised by a message ends the loop |
| CombineUserMessages.GatherMessages | filters/combine_user_messages.py:94-110 | the loop of `_combine_user_messages` computes `Gather`: the kept messages, texts and media after every message, or what a message raised |
| CombineUserMessages.Systems | filters/combine_user_messages.py:97-99 | the system messages, in order |
| CombineUserMessages.SystemsSnoc | filters/combine_user_messages.py:97-99 | one more message adds it exactly when it is a system message |
| CombineUserMessages.GatherKeepsSystems | filters/combine_user_messages.py:97-99 | the kept messages are exactly the system messages |
| CombineUserMessages.CombinedContent | filters/combine_user_messages.py:113-131 | a string exactly when there are texts and no media, the texts joined by the separator; otherwise the text part, if any, then every media item |
| CombineUserMessages.CombineOfUsers | filters/combine_user_messages.py:88-139 | the combined chat read off the chat itself: the system messages, then, when any user text or media exists, one user message of all user texts joined by the separator and all user media |
| CombineUserMessages.CombineShape | filters/combine_user_messages.py:88-139 | the system messages in order, then at most one user message; no assistant message is left |
| CombineUserMessages.CountRole | filters/combine_user_messages.py:175-177 | no more messages of a role than messages |
| CombineUserMessages.CountRoleConcat | filters/combine_user_messages.py:175-177 | counts add up over joined lists |
| CombineUserMessages.CountRoleOfSystems | filters/combine_user_messages.py:175-177 | the kept system messages count as system and as nothing else |
| CombineUserMessages.OutletCheck | filters/combine_user_messages.py:224-243 | the outlet's checks pass exactly on one user and one assistant message, at most one system message and two or three messages in all |
| CombineUserMessages.CombinedChatPasses | filters/combine_user_messages.py:88-139 | a combined conversation with one system message at most, followed by the answer, passes the outlet's checks (also lines 224-243) |
| CombineUserMessages.AnsweredChatPasses | filters/combine_user_messages.py:224-243 | systems, one user message and one answer pass |
| CombineUserMessages.PairRoles | filters/combine_user_messages.py:227-229 | a user message and an answer count one of each |
| CombineUserMessages.CombineMessages | filters/combine_user_messages.py:88-139 | the loop computes `Combine` |
| CombineUserMessages.GatherMessage | filters/combine_user_messages.py:94-110 | the loop body computes `Step` |
| CombineUserMessages.UserEnabled | filters/combine_user_messages.py:158-162 | no user, or a user without valves, is enabled; valves saying `enabled: false` disable |
| CombineUserMessages.Inlet | filters/combine_user_messages.py:141-195 | disabled, the body is returned as it is; enabled, its messages become the combined list when there are any and combining raises nothing, and otherwise the body is returned as it is |
| CombineUserMessages.Outlet | filters/combine_user_messages.py:197-250 | the body is returned unchanged; only reading the user's valves can raise |
| ClaudeCaching.PartsTextOk | filters/automatic_claude_caching.py:47-50 | a list of parts gives a text exactly when every part has a string "text"; the first part without one raises |
| ClaudeCaching.JoinPartTexts | filters/automatic_claude_caching.py:48-50 | the loop computes `PartsText` |
| ClaudeCaching.PartsTextErrorLasts | filters/automatic_claude_caching.py:49-50 | once a part raises, the parts after it change nothing |
| ClaudeCaching.SystemPrompt | filters/automatic_claude_caching.py:45-54 | a string content is the prompt itself; a dict gives its "text"; a list joins its parts' texts; any other content raises "Unexpected system message" |
| ClaudeCaching.Rewrite | filters/automatic_claude_caching.py:43-66 | a message of another role is kept as it is; a message with no role raises; a system message becomes the cached form of its prompt |
| ClaudeCaching.RewriteAll | filters/automatic_claude_caching.py:42-67 | succeeds exactly when every message can be rewritten, and then rewrites each message in its place |
| ClaudeCaching.CacheSystemMessages | filters/automatic_claude_caching.py:42-67 | the in-place loop leaves the rewritten list, or on an exception the messages before it rewritten and the rest as they were |
| ClaudeCaching.RewriteAllAt | filters/automatic_claude_caching.py:42-67 | the first message that raises decides the error |
| ClaudeCaching.RewriteAllShape | filters/automatic_claude_caching.py:57-66 | a rewritten system message holds exactly "role" and "content"; others are unchanged |
| ClaudeCaching.CachedSystemStable | filters/automatic_claude_caching.py:57-66 | a cached system message with a string prompt is rewritten into itself |
| ClaudeCaching.RewriteIdempotent | filters/automatic_claude_caching.py:42-67 | rewriting twice is rewriting once when the prompt read is a string |
| ClaudeCaching.RewriteDictContent | filters/automatic_claude_caching.py:51-52 | a dict content's "text" becomes the cached prompt whatever its type |
| ClaudeCaching.CachedNonStringRaises | filters/automatic_claude_caching.py:47-50 | a cached message whose prompt is not a string raises a TypeError when rewritten again |
| ClaudeCaching.RewriteNotIdempotentOnDictText | filters/automatic_claude_caching.py:47-52 | a dict content with a non-string "text" is cached once and then raises on a second inlet |
| ClaudeCaching.RewriteAllIdempotent | filters/automatic_claude_caching.py:42-67 | running the inlet's loop twice changes nothing more when every prompt read is a string |
| ClaudeCaching.RewriteAllOfFixed | filters/automatic_claude_caching.py:42-67 | a list every message of which is its own rewrite is kept |
| ClaudeCachingFilter.Inlet | filters/automatic_claude_caching.py:32-72 | with the valve off nothing is raised and the messages are untouched; with it on, a body without "messages" raises KeyError, and otherwise the messages are the rewritten list, or the error of the first message that raises |
| WipClaudeCachingFilter.MatchesAtStartNow | filters/WIP_automatic_claude_caching.py:53 | the loop over the alternatives decides `MatchesAtStart` |
| WipClaudeCachingFilter.AnySystem | filters/WIP_automatic_claude_caching.py:61 | true only when some message is a system message, false only when none is; no message without a role means no error |
| WipClaudeCachingFilter.Inlet | filters/WIP_automatic_claude_caching.py:28-96 | off: untouched; with a non-empty regex valve: no model key raises KeyError, and a model the pattern compiled at construction from the default valve does not match is left untouched, whatever the valve now says; past that gate a body without "messages" raises KeyError; no system message: raises; an empty regex valve: NameError on the unbound `model`; otherwise the rewritten list as in the released filter |
| WipClaudeCachingFilter.GptModelBypassed | filters/WIP_automatic_claude_caching.py:31-33 | a valve set to "gpt" does not get "gpt-4o" cached: the pattern matched is still the default one |
| WipClaudeCachingFilter.DefaultRegexMatchesClaude | filters/WIP_automatic_claude_caching.py:23-53 | the default regex matches a model name starting with "Claude" in any case |
| WipClaudeCachingFilter.DefaultRegexNeedsInitial | filters/WIP_automatic_claude_caching.py:23-53 | the default regex never matches a model name starting with a letter other than a, c, s, h or o |
| ToolCompressor.QuoteFreeSlice | filters/tool_compressor.py:61 | a stretch of text with no quote at any of its places is quote-free |
| ToolCompressor.AttrsParts | filters/tool_compressor.py:61 | the attribute pattern occurs at a place exactly when its fixed head, the content group, the separator, the results group and the closing quote follow one another there |
| ToolCompressor.OccursChars | filters/tool_compressor.py:61 | an occurrence fixes every character it covers |
| ToolCompressor.TryAtSound | filters/tool_compressor.py:61 | the groups read at a place are quote-free and the pattern occurs there with them |
| ToolCompressor.TryAtComplete | filters/tool_compressor.py:61 | wherever the pattern occurs with quote-free groups, they are the ones read there (the lazy and the greedy group agree, neither can hold a quote) |
| ToolCompressor.Attributes | filters/tool_compressor.py:61 | `re.search`: a found match lies at or after the start and is a real occurrence of the pattern |
| ToolCompressor.AttributesComplete | filters/tool_compressor.py:61 | the search finds the earliest occurrence: one exists no later than any occurrence, and at the same place it has the same groups |
| ToolCompressor.Cleaned | filters/tool_compressor.py:68-71 | after the attributes are dropped and every `</details>` is replaced by a newline, no `</details>` is left |
| ToolCompressor.Closed | filters/tool_compressor.py:77-78 | the result ends with `</details>`, added on a new line only when missing |
| ToolCompressor.CompressOne | filters/tool_compressor.py:61-79 | fails with the "Couldn't match tool call" assertion exactly when the attribute search fails; otherwise ends with `</details>` |
| ToolCompressor.CompressOneFails | filters/tool_compressor.py:61-62 | the assertion fails exactly when the pattern occurs nowhere in the block |
| ToolCompressor.CompressOneDefaults | filters/tool_compressor.py:30-79 | with both removal valves on (their defaults) the block is the cleaned text and a closing line, and holds no `</details>` before it |
| ToolCompressor.CompressOneAppends | filters/tool_compressor.py:64-79 | the cleaned text, then the unescaped content unless removed, then the unescaped results unless removed (both labelled "Results: "), then `</details>` if missing |
| ToolCompressor.AllOk | filters/tool_compressor.py:54 | the list comprehension succeeds exactly when every block does, with each value in its place; otherwise it raises the first block's error |
| ToolCompressor.AllOkFirstErr | filters/tool_compressor.py:54 | the first failing block decides the error |
| ToolCompressor.AllOkValues | filters/tool_compressor.py:54 | blocks that all succeed give their values in order |
| ToolCompressor.ReplaceEach | filters/tool_compressor.py:56-58 | the only failure of the replacement loop is the NameError of its assertion message, which names an undefined `i` |
| ToolCompressor.Compressed | filters/tool_compressor.py:46-79 | `compress_tool_calls` raises only its assertions or that NameError |
| ToolCompressor.BlockResults | filters/tool_compressor.py:53-54 | one result per block, each failing only as `compress_tool_calls` can |
| ToolCompressor.CompressedWithoutBlock | filters/tool_compressor.py:48-51 | a text with no tool-call block is returned as it is |
| ToolCompressor.BlockCompressedAlone | filters/tool_compressor.py:48-54 | a block found in a text is itself one block, so compressing it is compressing one block |
| ToolCompressor.SeveralBlocks | filters/tool_compressor.py:53-59 | several blocks are compressed one by one and each is replaced in the text by its compressed form |
| ToolCompressor.CompressToolCalls | filters/tool_compressor.py:46-79 | the method computes `Compressed` |
| ToolCompressor.CompressBlocks | filters/tool_compressor.py:54 | the loop over the blocks computes `AllOk` of their results |
| ToolCompressor.SubstituteBlocks | filters/tool_compressor.py:56-58 | the loop computes `ReplaceEach` |
| ToolCompressor.CompressMessage | filters/tool_compressor.py:87-96 | a message is compressed exactly when its content is a string that compresses; only "content" changes |
| ToolCompressor.MessageWithoutBlock | filters/tool_compressor.py:48-87 | a message with no tool-call block is kept |
| ToolCompressor.CompressMessages | filters/tool_compressor.py:81-97 | `inlet` and `outlet`: every message rewritten in place, or on an error the messages before the failing one rewritten and the rest untouched |
| AddMetadataV0.LoadJsonDict | filters/add_metadata/add_metadata.py:14-21 | a blank valve is the empty dict; otherwise the stripped text must decode, else a decode error, and decode to a dict, else the "json is not a dict" assertion |
| AddMetadataV0.LoadJsonList | filters/add_metadata/add_metadata.py:23-31 | a blank valve is the empty list; otherwise the stripped text must decode to a list, and one of strings only, each failure with its own assertion; a loaded list holds strings only |
| AddMetadataV0.Combined | filters/add_metadata/add_metadata.py:103-109 | two lists are concatenated, a scalar is added to the end of a list or a list put after a scalar, and two scalars keep the old value |
| AddMetadataV0.MergeEntry | filters/add_metadata/add_metadata.py:102-111 | one key: set when new, combined when present; every other key unchanged |
| AddMetadataV0.MergedOther | filters/add_metadata/add_metadata.py:102-111 | keys the extra metadata lacks are untouched by the merge |
| AddMetadataV0.MergedKeeps | filters/add_metadata/add_metadata.py:102-111 | no key is lost by the merge |
| AddMetadataV0.MergedHasExtra | filters/add_metadata/add_metadata.py:102-111 | every extra key is in the merged metadata, with exactly its extra value when it was new |
| AddMetadataV0.MergeMetadata | filters/add_metadata/add_metadata.py:102-111 | the loop computes `Merged` |
| AddMetadataV0.UserStep | filters/add_metadata/add_metadata.py:85-96 | needs the user's "name" and a dict metadata when present; then `user` is that name and the metadata holds the user dict, the tags untouched |
| AddMetadataV0.MetadataStep | filters/add_metadata/add_metadata.py:99-118 | an empty extra dict changes nothing; otherwise it is merged into a dict metadata, becomes the metadata when there is none, and raises a TypeError on a metadata that is not a dict |
| AddMetadataV0.TagsStep | filters/add_metadata/add_metadata.py:120-129 | no extra tags change nothing; otherwise they follow the body's tags, or become them; `+=` on tags that are not a list raises a TypeError |
| AddMetadataV0.SnapshotStep | filters/add_metadata/add_metadata.py:132 | succeeds exactly on a dict metadata, which then holds a copy of itself under "trace_metadata" and is otherwise unchanged; no metadata is a KeyError |
| AddMetadataV0.ValvesUpdated | filters/add_metadata/add_metadata.py:59-61 | accepts exactly valves whose dict and list both load, and reports the dict's error first |
| AddMetadataV0.ValvesAcceptedInlet | filters/add_metadata/add_metadata.py:59-136 | a successful inlet implies valves the hook accepts; accepted valves, a named user, a dict metadata and list tags make the inlet succeed |
| AddMetadataV0.Inlet | filters/add_metadata/add_metadata.py:63-136 | the inlet's steps, in order, compute `Added` |
| AddMetadataV0.AddedNamesUser | filters/add_metadata/add_metadata.py:85-96 | with user info on, the body's "user" is the user's name and the metadata holds the user dict, unless the extra dict overrides that key |
| AddMetadataV0.AddedAppendsTags | filters/add_metadata/add_metadata.py:120-127 | the extra tags come after the body's tags, in order and with duplicates kept |
| AddMetadataV0.AddedSnapshot | filters/add_metadata/add_metadata.py:132 | the final metadata holds its own snapshot |
| AddMetadataV0.AddedNeedsMetadata | filters/add_metadata/add_metadata.py:85-132 | without user info, extra metadata or body metadata, the snapshot line raises a KeyError |
| AddMetadataV0.AddedExtraIsMetadata | filters/add_metadata/add_metadata.py:114-132 | without user info or body metadata, the extra dict becomes the metadata beside its snapshot |
| AddMetadata.UserValue | filters/add_metadata.py:95 | the user's "name" and "email" joined by "_"; a missing one is a KeyError, "name" checked first; a user that is not a dict is a TypeError |
| AddMetadata.Dedup | filters/add_metadata.py:111 | `list(set(...))`: the same elements, each once, no more of them |
| AddMetadata.TagsStep | filters/add_metadata.py:103-114 | no extra tags change nothing; otherwise the metadata's tags, which must be a list when present, are joined with the extra tags and deduplicated, every tag having to be hashable; only "tags" changes |
| AddMetadata.TagCopiesSet | filters/add_metadata.py:117-121 | the tags are copied under the four trace keys, and "trace_metadata" holds them alone |
| AddMetadata.TagCopiesAt | filters/add_metadata.py:117-121 | after the copy step, each of "trace_tags", "update_trace_tags", "existing_trace_tags" and "existing_tags" holds exactly the metadata's tags |
| AddMetadata.TagCopiesOther | filters/add_metadata.py:117-121 | no other key changes |
| AddMetadata.Head | filters/add_metadata.py:127-129 | `[:100]`: a string or a list cut to its first hundred items; anything else is a TypeError |
| AddMetadata.LastHead | filters/add_metadata.py:127 | no messages is a KeyError, an empty list an IndexError, otherwise the head of the last message's content |
| AddMetadata.StampEntriesUnique | filters/add_metadata.py:126-132 | the stamp writes each of its keys once and no other key |
| AddMetadata.StampEntriesSet | filters/add_metadata.py:126-130 | session, generation and trace names and ids and the version are set as the source says |
| AddMetadata.StampEntriesLeaveDebug | filters/add_metadata.py:126-132 | "debug_langfuse" is left alone by the stamp itself |
| AddMetadata.StampedSet | filters/add_metadata.py:126-132 | the stamped metadata holds the chat id, the message id, the content head twice, the version, and `debug_langfuse: true` when debugging |
| AddMetadata.StampedOther | filters/add_metadata.py:126-132 | no other key changes |
| AddMetadata.StampStep | filters/add_metadata.py:126-132 | fails on a missing "chat_id", a bad last message or a missing "message_id", in that order; otherwise stamps |
| AddMetadata.OverrideStep | filters/add_metadata.py:139 | `dict.update`: keys of the overrides take their values, other keys are kept |
| AddMetadata.Overrides | filters/add_metadata.py:134-135 | the request metadata updated by the valve's dict: its keys are those of both, the valve winning |
| AddMetadata.UpdateKeys | filters/add_metadata.py:135-139 | an update keeps keys unique and holds exactly the keys of both dicts |
| AddMetadata.Prepared | filters/add_metadata.py:84-100 | the body's metadata, created when missing and required to be a dict, with the user dict and the user value added when user info is on; a user without name or email fails |
| AddMetadata.Tagged | filters/add_metadata.py:103-122 | the tag step, then the tag copies; no tags at all is a KeyError |
| AddMetadata.Finished | filters/add_metadata.py:134-143 | the overrides win, other keys are kept, and "trace_metadata" is a snapshot of the result |
| AddMetadata.Added | filters/add_metadata.py:62-175 | the inlet succeeds exactly when the metadata can be built |
| AddMetadata.Named | filters/add_metadata.py:95-96 | the body's "user" is the user value when user info is on |
| AddMetadata.Returned | filters/add_metadata.py:122-171 | the body carries the tags, the metadata, and the metadata again under "extra_body" |
| AddMetadata.CopyKeyDistinct | filters/add_metadata.py:117-132 | the copy keys are neither stamp keys nor "trace_metadata" nor "tags" |
| AddMetadata.StampKeyDistinct | filters/add_metadata.py:126-143 | no stamp key is "trace_metadata" |
| AddMetadata.FinalIsStamped | filters/add_metadata.py:134-143 | keys not overridden keep their stamped value |
| AddMetadata.Stages | filters/add_metadata.py:84-143 | a successful inlet passes through each step in order, and its metadata is the last step's |
| AddMetadata.AddedExposesMetadata | filters/add_metadata.py:122-171 | the returned body exposes the final metadata under "metadata" and "extra_body", the tags under "tags", and the metadata holds its snapshot |
| AddMetadata.UserKeysOnly | filters/add_metadata.py:99-100 | the two user keys are written by no later step |
| AddMetadata.AddedUserKey | filters/add_metadata.py:88-96 | with user info on, the inlet succeeds only with a named user with an email, whose value becomes "user"; otherwise "user" is untouched |
| AddMetadata.FinalKeeps | filters/add_metadata.py:99-143 | the user keys keep the values written at lines 99-100 unless overridden |
| AddMetadata.AddedNamesUser | filters/add_metadata.py:95-100 | user info on: "user", "trace_user_id" and "open-webui_userinfo" hold the user, unless overridden |
| AddMetadata.BodyTagsAt | filters/add_metadata.py:105 | the tags read are the body metadata's tags |
| AddMetadata.AddedTags | filters/add_metadata.py:103-122 | with extra tags, the final tags are exactly the body's and the extra ones, without repeats; without, they are the body metadata's own |
| AddMetadata.AddedCopiesTags | filters/add_metadata.py:117-121 | each copy key holds the final tags unless overridden |
| AddMetadata.AddedStamps | filters/add_metadata.py:126-132 | a successful inlet had the request metadata and a readable last message, and the stamps stand unless overridden |
| AddMetadata.StampsKept | filters/add_metadata.py:126-143 | stamps survive the final update when not overridden |
| AddMetadata.AddedOverrides | filters/add_metadata.py:134-139 | an overridden key holds the valve's value, else the request metadata's |
| AddMetadata.MissingTagsFail | filters/add_metadata.py:84-117 | with no tags valve and no body metadata, reading the tags raises a KeyError |
| AddMetadata.MissingChatIdFails | filters/add_metadata.py:73-126 | without request metadata the inlet raises a KeyError on "chat_id" |
| AddMetadata.OnValvesUpdated | filters/add_metadata.py:59-60 | accepts exactly a metadata valve that loads |
| AddMetadata.ValveAcceptedInlet | filters/add_metadata.py:59-175 | a successful inlet implies an accepted valve; with it, the inlet succeeds exactly when the user, tag and stamp steps do |
| AddMetadata.PrepareBody | filters/add_metadata.py:84-100 | the steps compute `Prepared` and `Named` |
| AddMetadata.TagMetadata | filters/add_metadata.py:103-122 | the steps compute `Tagged` |
| AddMetadata.StampMetadata | filters/add_metadata.py:126-132 | the steps compute `StampStep` |
| AddMetadata.FinishMetadata | filters/add_metadata.py:134-143 | a valve that does not load raises its error; otherwise the overrides are applied and the snapshot taken |
| AddMetadata.BuildMetadata | filters/add_metadata.py:84-143 | the steps compute the final metadata and the named body |
| AddMetadata.Inlet | filters/add_metadata.py:62-175 | the method computes `Added` |
| AddMetadata.ExposeMetadata | filters/add_metadata.py:122-171 | the method computes `Returned` |
| LitellmFilter.StrLeTotal | pipelines/litellm_filter.py:92 | string order is total |
| LitellmFilter.StrLeTrans | pipelines/litellm_filter.py:92 | string order is transitive |
| LitellmFilter.StrLeAntisym | pipelines/litellm_filter.py:92 | string order is antisymmetric |
| LitellmFilter.LeTotal | pipelines/litellm_filter.py:92 | two strings or two numbers are comparable |
| LitellmFilter.LeTrans | pipelines/litellm_filter.py:92 | the order `sorted` uses is transitive |
| LitellmFilter.LeAntisym | pipelines/litellm_filter.py:92 | and antisymmetric |
| LitellmFilter.OrderedHead | pipelines/litellm_filter.py:92 | the first item of an ordered list is below every item |
| LitellmFilter.Insert | pipelines/litellm_filter.py:92 | insertion adds exactly the one item |
| LitellmFilter.InsertOrdered | pipelines/litellm_filter.py:92 | insertion into an ordered list of one kind keeps it ordered |
| LitellmFilter.SortItems | pipelines/litellm_filter.py:92 | the sorted list is a permutation of the input |
| LitellmFilter.SortItemsOrdered | pipelines/litellm_filter.py:92 | and is ordered when all items are strings or all are numbers |
| LitellmFilter.OrderedTail | pipelines/litellm_filter.py:92 | the rest of an ordered list is ordered |
| LitellmFilter.SameItemsTail | pipelines/litellm_filter.py:92 | permutations with the same head have permuted tails |
| LitellmFilter.OrderedUnique | pipelines/litellm_filter.py:92 | two ordered permutations of one sortable list are equal: `sorted` has one answer |
| LitellmFilter.Sorted | pipelines/litellm_filter.py:92 | `sorted` of an iterable of at most one item, of strings only or of numbers only: succeeds exactly on these, giving the items ordered and permuted; any other list of two or more raises a TypeError here |
| Json.PyIn | pipelines/litellm_filter.py:88 | Python's `in`: membership in a list, a key of a dict, a substring of a string; a TypeError otherwise |
| LitellmFilter.Moved | pipelines/litellm_filter.py:58-64 | "metadata" becomes "custom_metadata" unless that key exists, when nothing moves; no other key changes |
| LitellmFilter.Session | pipelines/litellm_filter.py:66-76 | the custom metadata's "session_id" becomes the body's "chat_id", created with it when there is none; a missing chat id fails, and so does a custom metadata that is not a dict |
| LitellmFilter.TraceUser | pipelines/litellm_filter.py:78-82 | with a truthy user (the argument, else the body's), "trace_user_id" is its name and email joined by " / ", failing when either is missing; otherwise nothing changes |
| LitellmFilter.AddMissingList | pipelines/litellm_filter.py:87-89 | on a list, the missing tags are appended: the old list is a prefix, the result holds exactly both, and no repeat is introduced |
| LitellmFilter.AddMissingOther | pipelines/litellm_filter.py:87-89 | on a value that is not a list, the loop succeeds only when every tag is already `in` it, and changes nothing |
| LitellmFilter.Chars | pipelines/litellm_filter.py:91-92 | one string per character, in order (iterating a string) |
| LitellmFilter.TagsMerged | pipelines/litellm_filter.py:84-92 | a blank valve changes nothing; otherwise "tags" becomes a list and nothing else changes; a valve that does not decode fails when tags exist |
| LitellmFilter.Overwritten | pipelines/litellm_filter.py:94-100 | a blank valve changes nothing; otherwise it must decode to a dict (a decode error, else an AttributeError), whose entries overwrite the custom metadata |
| LitellmFilter.TagsMergedList | pipelines/litellm_filter.py:86-92 | existing list tags and a decoded list give the sorted union, without new repeats |
| LitellmFilter.DistinctCons | pipelines/litellm_filter.py:88-89 | a list has no repeat exactly when its head is not in its tail and its tail has none |
| LitellmFilter.AtMostOnceCons | pipelines/litellm_filter.py:92 | the same, counted in a multiset |
| LitellmFilter.DistinctCount | pipelines/litellm_filter.py:92 | no repeat exactly when no item occurs twice in the multiset |
| LitellmFilter.MultisetDistinct | pipelines/litellm_filter.py:92 | sorting keeps a list free of repeats |
| LitellmFilter.TagsMergedRaw | pipelines/litellm_filter.py:90-92 | without existing tags, the valve's raw text is stored and sorted into its characters |
| LitellmFilter.OverwrittenIsUpdate | pipelines/litellm_filter.py:95-100 | a successful overwrite is the update by the decoded dict |
| LitellmFilter.SessionKeeps | pipelines/litellm_filter.py:58-76 | the session step changes only "session_id" of the metadata found |
| LitellmFilter.Stages | pipelines/litellm_filter.py:55-102 | a successful inlet passes each step in order and stores the last step's metadata under "custom_metadata" |
| LitellmFilter.FilteredMoves | pipelines/litellm_filter.py:58-102 | after the inlet "custom_metadata" is a dict, "metadata" is gone when it moved and kept when it could not, and no other key changes |
| LitellmFilter.FilteredSession | pipelines/litellm_filter.py:66-76 | no chat id fails the inlet; otherwise "session_id" is the chat id unless the extra metadata sets it |
| LitellmFilter.ChatMoved | pipelines/litellm_filter.py:58-64 | moving the metadata leaves "chat_id" |
| LitellmFilter.SessionKept | pipelines/litellm_filter.py:78-100 | later steps keep "session_id" unless the extra metadata sets it |
| LitellmFilter.FilteredKeeps | pipelines/litellm_filter.py:55-102 | keys the inlet does not write keep the value of the metadata found |
| LitellmFilter.FilteredOverwrites | pipelines/litellm_filter.py:97-100 | a key of the extra metadata holds its value at the end |
| LitellmFilter.FilteredTraceUser | pipelines/litellm_filter.py:78-82 | a truthy user gives "trace_user_id" as name " / " email; otherwise it stays as it was |
| LitellmFilter.TraceKept | pipelines/litellm_filter.py:84-100 | later steps keep "trace_user_id" unless the extra metadata sets it |
| LitellmFilter.ChosenMoved | pipelines/litellm_filter.py:79 | the user chosen is the same after the session step |
| LitellmFilter.UserMoved | pipelines/litellm_filter.py:79 | and the body's "user" is untouched |
| LitellmFilter.TagsBefore | pipelines/litellm_filter.py:66-82 | the tags reach the tag step as found |
| LitellmFilter.TagsAfter | pipelines/litellm_filter.py:94-100 | the extra metadata keeps the tags unless it sets them |
| LitellmFilter.FilteredTagsList | pipelines/litellm_filter.py:84-92 | the final tags are the sorted union of the existing list and the valve's list |
| LitellmFilter.FilteredTagsRaw | pipelines/litellm_filter.py:90-92 | with no existing tags the final tags are the sorted characters of the valve's text |
| LitellmFilter.FilteredTagsBlank | pipelines/litellm_filter.py:85 | a blank valve keeps the tags |
| LitellmFilter.AddMissingTags | pipelines/litellm_filter.py:87-89 | the loop computes `AddMissing` |
| LitellmFilter.UpdateCustomMetadata | pipelines/litellm_filter.py:97-100 | the loop writes every extra key's value and keeps the others |
| LitellmFilter.MergeTags | pipelines/litellm_filter.py:84-92 | the steps compute `TagsMerged` |
| LitellmFilter.AddExtraMetadata | pipelines/litellm_filter.py:94-100 | the steps compute `Overwritten` |
| LitellmFilter.Inlet | pipelines/litellm_filter.py:55-102 | the method computes `Filtered` |
| LitellmFilter.ParseFailure | pipelines/litellm_filter.py:53 | the message quotes the decoder's reason |
| LitellmFilter.ValvesUpdated | pipelines/litellm_filter.py:47-53 | the hook accepts exactly an extra-metadata valve that decodes, and otherwise raises with the reason |
| LitellmFilter.ValvesAcceptedInlet | pipelines/litellm_filter.py:47-100 | an accepted valve can still fail the inlet, only with an AttributeError when it is not a dict; a successful non-blank one is accepted |
| LangfusePipeline.Roles | pipelines/langfuse_litellm_filter_pipeline.py:29-30 | the role lookup of each message, in order |
| LangfusePipeline.LastAt | pipelines/langfuse_litellm_filter_pipeline.py:29-32 | the scan from the end finds a position in range, raises only an error some role lookup raised, and cannot fail when every message has a role |
| LangfusePipeline.LastAtIs | pipelines/langfuse_litellm_filter_pipeline.py:29-32 | the position found holds "assistant" and none after it does; no position means no assistant at all |
| LangfusePipeline.LastAssistant | pipelines/langfuse_litellm_filter_pipeline.py:27-32 | the last assistant message, or `{}` exactly when there is none; raises only on a message without a role before it |
| LangfusePipeline.BuildTags | pipelines/langfuse_litellm_filter_pipeline.py:125-137 | no tags with the valve off; otherwise "open-webui", then the task name unless it is "user_response" or "llm_response" |
| LangfusePipeline.ValvesUpdated | pipelines/langfuse_litellm_filter_pipeline.py:98-103 | only "name", "id" and "litellm" are accepted, anything else raises a ValueError |
| LangfusePipeline.ModelValue | pipelines/langfuse_litellm_filter_pipeline.py:208-226 | "name" gives the name, "id" the id, "litellm" the looked-up name or the id when the lookup fails; any other kind raises a ValueError |
| LangfusePipeline.Or | pipelines/langfuse_litellm_filter_pipeline.py:346-347 | Python's `or`: the first value when truthy, else the second |
| LangfusePipeline.Count | pipelines/langfuse_litellm_filter_pipeline.py:346-347 | a token count from the first key when truthy, else the second |
| LangfusePipeline.UsageOf | pipelines/langfuse_litellm_filter_pipeline.py:342-354 | a usage exactly for a non-empty message with a usage dict holding both counts, with those counts |
| LangfusePipeline.Opened | pipelines/langfuse_litellm_filter_pipeline.py:145-148 | the metadata with its chat id, a fresh UUID when it had none, other keys kept; a metadata that is not a dict raises an AttributeError |
| LangfusePipeline.Stored | pipelines/langfuse_litellm_filter_pipeline.py:151-161 | the chat's model id is stored over the old one, its name only when the metadata's model dict has one; other chats untouched |
| LangfusePipeline.MissingKeys | pipelines/langfuse_litellm_filter_pipeline.py:164-165 | empty exactly when "model" and "messages" are both present; each listed key is missing |
| LangfusePipeline.MissingError | pipelines/langfuse_litellm_filter_pipeline.py:166-169 | missing keys raise a ValueError |
| LangfusePipeline.Email | pipelines/langfuse_litellm_filter_pipeline.py:171 | no user gives `None`; a user dict gives its "email" or `None` |
| LangfusePipeline.Registered | pipelines/langfuse_litellm_filter_pipeline.py:178-201 | a chat without a trace gets a new one named "chat:<id>" for the user's email and the chat's session, recorded as created; one with a trace keeps it, retagged when there are tags; other chats untouched |
| LangfusePipeline.Observe | pipelines/langfuse_litellm_filter_pipeline.py:244 | the observation is appended to the chat's trace and nothing else changes (also lines 258, 400 and 419) |
| LangfusePipeline.Stamped | pipelines/langfuse_litellm_filter_pipeline.py:204-205 | "type" is the task and "interface" is "open-webui"; other keys kept (also lines 359-360) |
| LangfusePipeline.ModelStamped | pipelines/langfuse_litellm_filter_pipeline.py:229-230 | both model values are written; other keys kept (also lines 383-384) |
| LangfusePipeline.Remember | pipelines/langfuse_litellm_filter_pipeline.py:151-161 | the chat's model id is stored; traces untouched, no stored chat lost |
| LangfusePipeline.Closing | pipelines/langfuse_litellm_filter_pipeline.py:362-420 | a generation end with the usage and tags, or an event with the tags; only an unknown identifier kind fails |
| LangfusePipeline.RegisteredKeeps | pipelines/langfuse_litellm_filter_pipeline.py:178-201 | opening or reusing a trace keeps one trace per chat, each in the created list once, each chat having its model stored |
| LangfusePipeline.LoggedRegistry | pipelines/langfuse_litellm_filter_pipeline.py:203-258 | logging keeps that registry invariant |
| LangfusePipeline.TracedRegistry | pipelines/langfuse_litellm_filter_pipeline.py:171-260 | and so does tracing a stored chat |
| LangfusePipeline.InletRegistry | pipelines/langfuse_litellm_filter_pipeline.py:139-260 | the inlet keeps the registry invariant, whatever it returns |
| LangfusePipeline.AnsweredRegistry | pipelines/langfuse_litellm_filter_pipeline.py:337-420 | answering keeps it |
| LangfusePipeline.ClosedRegistry | pipelines/langfuse_litellm_filter_pipeline.py:359-420 | closing keeps it |
| LangfusePipeline.OutletRegistry | pipelines/langfuse_litellm_filter_pipeline.py:321-422 | the outlet keeps it, whatever it returns |
| LangfusePipeline.MetaKeysDiffer | pipelines/langfuse_litellm_filter_pipeline.py:147-230 | the metadata keys written are distinct |
| LangfusePipeline.StampedKeeps | pipelines/langfuse_litellm_filter_pipeline.py:204-205 | the stamp keeps the chat id |
| LangfusePipeline.ModelStampedKeeps | pipelines/langfuse_litellm_filter_pipeline.py:229-230 | the model stamp keeps the chat id, the task and the interface |
| LangfusePipeline.InletMetadataKeys | pipelines/langfuse_litellm_filter_pipeline.py:204-230 | the inlet's metadata holds the chat id, the task, the interface, and both model values of a generation |
| LangfusePipeline.ClosedMetaKeys | pipelines/langfuse_litellm_filter_pipeline.py:359-411 | the outlet's metadata holds the task and interface, then the model values of a generation or an event's usage when there is one |
| LangfusePipeline.InletStages | pipelines/langfuse_litellm_filter_pipeline.py:145-260 | a successful inlet passes each step in order; a chat without a trace needs a client |
| LangfusePipeline.LoggedIs | pipelines/langfuse_litellm_filter_pipeline.py:203-258 | logging records the inlet's observation and returns the body with the stamped metadata |
| LangfusePipeline.InletMetadataOut | pipelines/langfuse_litellm_filter_pipeline.py:145-205 | the returned metadata holds the chat id, a fresh UUID when none, the task ("user_response" by default) and the interface |
| LangfusePipeline.TaskOpened | pipelines/langfuse_litellm_filter_pipeline.py:146-173 | the task and chat id read after opening are the body's, defaulted |
| LangfusePipeline.InletTraces | pipelines/langfuse_litellm_filter_pipeline.py:178-201 | after a successful inlet the chat has a trace; an existing one keeps its name, user and session and nothing is created; otherwise exactly this chat is added to the created ones |
| LangfusePipeline.InletMissing | pipelines/langfuse_litellm_filter_pipeline.py:150-169 | missing keys are refused after the model was stored, and no trace changes |
| LangfusePipeline.InletObserves | pipelines/langfuse_litellm_filter_pipeline.py:207-258 | the inlet logs one observation: a generation with the chosen model for "llm_response", an event for any other task |
| LangfusePipeline.OutletUnknown | pipelines/langfuse_litellm_filter_pipeline.py:332-335 | a chat without a trace makes the outlet run the inlet |
| LangfusePipeline.AnsweredIs | pipelines/langfuse_litellm_filter_pipeline.py:337-357 | the last assistant text becomes the trace's output, then the close step runs |
| LangfusePipeline.OutletKnown | pipelines/langfuse_litellm_filter_pipeline.py:337-420 | a chat with a trace opens none: the output is the last assistant text and one closing observation is logged |
| LangfusePipeline.Pipeline.constructor | pipelines/langfuse_litellm_filter_pipeline.py:54-80 | tags on, the given identifier kind, no client, no traces and no stored models |
| LangfusePipeline.Pipeline.OnStartup | pipelines/langfuse_litellm_filter_pipeline.py:89-123 | a client is kept once built; a failure to build is only logged |
| LangfusePipeline.Pipeline.OnValvesUpdated | pipelines/langfuse_litellm_filter_pipeline.py:98-104 | the new valves are stored, validated first, and only valid ones reach the client |
| LangfusePipeline.Pipeline.Inlet | pipelines/langfuse_litellm_filter_pipeline.py:139-260 | the inlet computes `InletStep` on the object's state and keeps the registry invariant |
| LangfusePipeline.Pipeline.Remembered | pipelines/langfuse_litellm_filter_pipeline.py:150-201 | the steps after opening the metadata compute `FromMetadata` |
| LangfusePipeline.Pipeline.TraceChat | pipelines/langfuse_litellm_filter_pipeline.py:171-260 | the steps after storing the model compute `Traced` |
| LangfusePipeline.Pipeline.Register | pipelines/langfuse_litellm_filter_pipeline.py:178-201 | the trace is opened or reused as `Registered` says |
| LangfusePipeline.Pipeline.Log | pipelines/langfuse_litellm_filter_pipeline.py:203-258 | the observation is logged as `Logged` says |
| LangfusePipeline.Pipeline.Record | pipelines/langfuse_litellm_filter_pipeline.py:244 | the observation is appended to the chat's trace (also lines 258, 400 and 419) |
| LangfusePipeline.Pipeline.Outlet | pipelines/langfuse_litellm_filter_pipeline.py:321-422 | the outlet computes `OutletStep` on the object's state and keeps the registry invariant |
| LangfusePipeline.Pipeline.Answer | pipelines/langfuse_litellm_filter_pipeline.py:337-357 | the steps compute `Answered` |
| LangfusePipeline.Pipeline.Close | pipelines/langfuse_litellm_filter_pipeline.py:359-420 | the steps compute `Closed` |
| AnkiCards.Enabled | filters/anki_db_creator.py:186-193 | no user, or a user without valves, is enabled; a user's valves dict decides through its truthy "enabled", true by default |
| AnkiCards.FieldLines | filters/anki_db_creator.py:208-210 | no fields give no lines |
| AnkiCards.FieldLinesInOrder | filters/anki_db_creator.py:209-210 | one "- **name**: description" line per field, in key order |
| AnkiCards.BuildFieldLines | filters/anki_db_creator.py:209-210 | the loop computes `FieldLines` |
| AnkiCards.ExampleCard | filters/anki_db_creator.py:217-224 | the example card has each key once |
| AnkiCards.KeysDistinct | filters/anki_db_creator.py:200-224 | a dict's keys are distinct names |
| AnkiCards.ExampleCardFields | filters/anki_db_creator.py:217-224 | the example card has the description's keys in order, the cloze example under the first and the generic text under the others |
| AnkiCards.ExamplePairsKeys | filters/anki_db_creator.py:217-224 | its keys are the field names |
| AnkiCards.ExamplePairsSnoc | filters/anki_db_creator.py:219-224 | each loop turn adds its field at the end |
| AnkiCards.BuildExampleCard | filters/anki_db_creator.py:217-224 | the loop with its `first_field` flag computes `ExampleCard` |
| AnkiCards.RoleIs | filters/anki_db_creator.py:234 | `m.get("role") == role`; a message that is not a dict raises an AttributeError |
| AnkiCards.FirstWithRole | filters/anki_db_creator.py:233-243 | the first message with the role, none before it having it; none means none has it; only a non-dict message met first raises |
| AnkiCards.WithInstruction | filters/anki_db_creator.py:236-241 | the instruction is appended to a string content or as a text item at the end of a list content; other content and every other key are left alone |
| AnkiCards.Inject | filters/anki_db_creator.py:230-249 | the first system message gets the instruction and nothing else changes, or with no system message a new one holding the instruction is put first |
| AnkiCards.InjectedSystemFirst | filters/anki_db_creator.py:233-247 | afterwards the first system message is where the instruction went |
| AnkiCards.FirstWithRoleIs | filters/anki_db_creator.py:233-243 | the scan stops at the first message with the role |
| AnkiCards.InjectInstruction | filters/anki_db_creator.py:230-249 | the loop that stops at the first system message computes `Inject` |
| AnkiCards.LastWithRole | filters/anki_db_creator.py:292-296 | the last message with the role, none after it having it; none means none has it; only a non-dict message met first raises |
| AnkiCards.FindLastWithRole | filters/anki_db_creator.py:292-296 | the loop over `reversed(messages)` computes `LastWithRole` |
| AnkiCards.CardsOf | actions/anki_db_creator.py:78-81 | a list gives its items, anything else is one card |
| AnkiCards.BlockCards | actions/anki_db_creator.py:76-84 | a block that does not parse gives no card; one that does gives its cards |
| AnkiCards.BlocksCards | actions/anki_db_creator.py:75-84 | no blocks give no cards |
| AnkiCards.BlocksCardsAppend | actions/anki_db_creator.py:75-84 | the cards of joined block lists are the joined cards |
| AnkiCards.NoOpenNoBlocks | actions/anki_db_creator.py:67-73 | a content without the opening tag in any case has no block |
| AnkiCards.Gathered | actions/anki_db_creator.py:69-86 | an empty conversation gives no card |
| AnkiCards.AppendAssoc | actions/anki_db_creator.py:79-81 | joining card lists is associative |
| AnkiCards.GatheredAppend | actions/anki_db_creator.py:69-86 | the cards of two parts of a conversation are those of each, in order; an exception in the first part is the whole loop's |
| AnkiCards.GatheredOne | actions/anki_db_creator.py:69-86 | one message gives its own cards |
| AnkiCards.GatheredPrefixErr | actions/anki_db_creator.py:69-86 | a message that raises stops the loop for good |
| AnkiCards.OthersAddNothing | actions/anki_db_creator.py:70 | messages that are not assistant messages add no card |
| AnkiCards.NoTagNoCards | actions/anki_db_creator.py:70-73 | an assistant message without the opening tag adds no card |
| AnkiCards.AssistantCards | actions/anki_db_creator.py:70-84 | an assistant message's cards are those of its blocks, in order |
| AnkiCards.CollectedCoversFirstBlock | actions/anki_db_creator.py:69-86 | a conversation holds at least the cards of the first block of any assistant message |
| AnkiCards.FirstBlockCards | actions/anki_db_creator.py:75-84 | a message holds at least its first block's cards |
| AnkiCards.GatheredCovers | actions/anki_db_creator.py:69-86 | every message's cards are counted among those gathered |
| AnkiCards.ReadMessage | actions/anki_db_creator.py:70-84 | the method computes `MessageCards` |
| AnkiCards.ReadBlocks | actions/anki_db_creator.py:75-84 | the loop over the matches computes `BlocksCards` |
| AnkiCards.CollectCards | actions/anki_db_creator.py:69-86 | the loop computes `Collected` |
| AnkiCards.Conversation | actions/anki_db_creator.py:64-69 | a list gives its messages, an empty dict or string none; other values fail with an AttributeError or a TypeError |
| AnkiCards.ExtractAllCards | actions/anki_db_creator.py:58-86 | `_extract_all_cards` computes `ConversationCards` |
| AnkiCards.GatheredNothing | actions/anki_db_creator.py:69-86 | messages that each add no card add none together |
| AnkiCards.NoTagAnywhere | actions/anki_db_creator.py:69-86 | a conversation with no assistant message holding the opening tag has no card |
| AnkiCards.AnswerSections | filters/anki_db_creator.py:121-122 | no later fields give no section |
| AnkiCards.AnswerSectionsInOrder | filters/anki_db_creator.py:121-122 | one section per later field, in order |
| AnkiCards.CreateModel | filters/anki_db_creator.py:107-138 | no fields raise an IndexError; otherwise the question is the cloze of the first field and the answer repeats it and adds every later field |
| AnkiCards.ModelAnswer | filters/anki_db_creator.py:117-122 | the answer template section by section |
| AnkiCards.BuildModel | filters/anki_db_creator.py:117-122 | the loop computes `CreateModel` |
| AnkiCards.NoteFields | filters/anki_db_creator.py:160 | one value per field name, in order, "" for a missing one; a card that is not a dict raises an AttributeError when there are fields |
| AnkiCards.Notes | filters/anki_db_creator.py:158-165 | every card makes a note, in order, or the error of the first that cannot |
| AnkiCards.FieldNames | filters/anki_db_creator.py:146-150 | the description's keys, in order, exactly when it decodes to a dict; otherwise the ValueError about the description |
| AnkiCards.PackageOf | actions/anki_db_creator.py:123-175 | no genanki raises an ImportError; no cards (in the action) a ValueError; a bad description its ValueError; otherwise the deck of notes with the model of the fields |
| AnkiCards.CreatePackage | filters/anki_db_creator.py:140-171 | the steps compute `PackageOf` |
| AnkiCards.NotesPrefixErr | filters/anki_db_creator.py:158-165 | a card that raises stops every longer list of notes |
| AnkiCards.FileName | actions/anki_db_creator.py:244 | the file name ends in ".apkg" |
| AnkiCards.FileNameHasNoSpace | actions/anki_db_creator.py:244 | and holds no space |
| AnkiDeckFilter.LinesLackPattern | filters/anki_deck_creator_filter.py:25-45 | a one-line pattern cannot occur in text made of lines that each lack one of its characters |
| AnkiDeckFilter.HeadEnds | filters/anki_deck_creator_filter.py:25-35 | each line of the template before the fields placeholder ends with a new line |
| AnkiDeckFilter.MidEnds | filters/anki_deck_creator_filter.py:35-41 | the template between and after the placeholders starts and ends on a new line |
| AnkiDeckFilter.PlaceholderChars | filters/anki_deck_creator_filter.py:35-41 | the characters of the two placeholders that the proofs use |
| AnkiDeckFilter.PlaceholderAbsent | filters/anki_deck_creator_filter.py:25-45 | neither placeholder occurs in the fixed parts of the template |
| AnkiDeckFilter.FillTemplate | filters/anki_deck_creator_filter.py:88-90 | replacing two placeholders that occur once each, and not in the text put for the first, puts the fields list and the example in their places |
| AnkiDeckFilter.TemplateFacts | filters/anki_deck_creator_filter.py:25-45 | the template facts `FillTemplate` needs |
| AnkiDeckFilter.InstructionLayout | filters/anki_deck_creator_filter.py:48-92 | the instruction is the template with the right-stripped field lines and the example JSON in place of the placeholders, when the field lines do not hold the example placeholder |
| AnkiDeckFilter.GenerateInstruction | filters/anki_deck_creator_filter.py:48-92 | the loops compute `Instruction` |
| AnkiDeckFilter.InfoBodyNoMarker | filters/anki_deck_creator_filter.py:302-306 | no marker can start inside the text of the info block |
| AnkiDeckFilter.InfoMarkerChars | filters/anki_deck_creator_filter.py:306 | the marker facts the removal proof uses (also lines 160 and 302) |
| AnkiDeckFilter.Regroup | filters/anki_deck_creator_filter.py:302-308 | joining is associative |
| AnkiDeckFilter.InfoRemoved | filters/anki_deck_creator_filter.py:160-166 | the inlet's cleanup removes the info block the outlet appended, leaving the content and its two new lines (also lines 302-308) |
| AnkiDeckFilter.CleanItem | filters/anki_deck_creator_filter.py:171-178 | a text item with a string text is cleaned, only its "text" changing; a non-string text raises a TypeError; other items are left alone |
| AnkiDeckFilter.CleanMessage | filters/anki_deck_creator_filter.py:162-178 | a string content is cleaned, a list content item by item; only "content" changes; a message that is not a dict raises an AttributeError |
| AnkiDeckFilter.ItemErrors | filters/anki_deck_creator_filter.py:171-178 | the only error of the item loop is the TypeError |
| AnkiDeckFilter.Prepared | filters/anki_deck_creator_filter.py:135-221 | only reading the user's valves can raise; a disabled user gets the body back; any error inside the try gives the body with whatever was already changed; only "messages" changes |
| AnkiDeckFilter.InstructedBy | filters/anki_deck_creator_filter.py:182-214 | a description that does not decode to a dict leaves the body alone; only "messages" changes |
| AnkiDeckFilter.Instructed | filters/anki_deck_creator_filter.py:192-214 | with dict messages the messages are the injected ones; otherwise the body is left alone |
| AnkiDeckFilter.PreparedInjects | filters/anki_deck_creator_filter.py:156-214 | enabled, with messages that clean and a dict description, the inlet cleans them and then injects the instruction |
| AnkiDeckFilter.PreparedCleaned | filters/anki_deck_creator_filter.py:156-190 | messages that clean are cleaned before the instruction step |
| AnkiDeckFilter.CleanedAreDicts | filters/anki_deck_creator_filter.py:162-178 | messages that clean were dicts |
| AnkiDeckFilter.CleanedIsDict | filters/anki_deck_creator_filter.py:163 | one message that cleans was a dict |
| AnkiDeckFilter.InstructedInjects | filters/anki_deck_creator_filter.py:190-214 | a dict description and dict messages give the injected messages |
| AnkiDeckFilter.InstructedAtMessages | filters/anki_deck_creator_filter.py:196-214 | dict messages always take the injection |
| AnkiDeckFilter.AnnotationRemoved | filters/anki_deck_creator_filter.py:160-168 | a message annotated by the outlet is restored by the inlet's cleanup up to two new lines (also lines 302-308) |
| AnkiDeckFilter.CleanOne | filters/anki_deck_creator_filter.py:162-178 | the loop body computes `CleanMessage` |
| AnkiDeckFilter.CleanMessages | filters/anki_deck_creator_filter.py:162-180 | the loop computes the messages cleaned up to the first error |
| AnkiDeckFilter.Inlet | filters/anki_deck_creator_filter.py:135-221 | the method computes `Prepared` |
| AnkiDeckFilter.Instruct | filters/anki_deck_creator_filter.py:182-214 | the method computes `InstructedBy` |
| AnkiDeckFilter.Counted | filters/anki_deck_creator_filter.py:244-298 | a count only for the last assistant message, with a card block; the new cards are its first block's, the total all the conversation's blocks' |
| AnkiDeckFilter.CountedAddedAtMostTotal | filters/anki_deck_creator_filter.py:272-298 | the new cards never exceed the total |
| AnkiDeckFilter.NoTagNoCount | filters/anki_deck_creator_filter.py:260-268 | a last assistant message without the tag is not annotated |
| AnkiDeckFilter.Annotated | filters/anki_deck_creator_filter.py:223-317 | only reading the user's valves can raise; a disabled user gets the body back; a changed body differs only in the last assistant message, which gets the info block |
| AnkiDeckFilter.AnnotatedRoundTrip | filters/anki_deck_creator_filter.py:160-168 | the info block the outlet adds is removed by the next inlet (also lines 302-308) |
| AnkiDeckFilter.CountBlocks | filters/anki_deck_creator_filter.py:290-298 | the loop counts the cards of the blocks |
| AnkiDeckFilter.CountMessage | filters/anki_deck_creator_filter.py:285-298 | the count of one message's cards, or its error |
| AnkiDeckFilter.CountCards | filters/anki_deck_creator_filter.py:282-298 | the count of the conversation's cards, or the error |
| AnkiDeckFilter.CountLast | filters/anki_deck_creator_filter.py:244-298 | the method computes `Counted` |
| AnkiDeckFilter.Outlet | filters/anki_deck_creator_filter.py:223-317 | the method computes `Annotated` |
| AnkiDbFilter.InstructionLayout | filters/anki_db_creator.py:206-227 | the instruction is the fixed introduction, one line per described field in order, the cloze and example headings, the JSON of one example card whose first field shows a cloze and the others filler, and the closing tag |
| AnkiDbFilter.BuildInstruction | filters/anki_db_creator.py:206-227 | the loops compute `Instruction` |
| AnkiDbFilter.Prepared | filters/anki_db_creator.py:173-256 | only reading the user's valves can raise; a disabled user, a description that is not a dict or messages that are not a list leave the body alone; only "messages" changes |
| AnkiDbFilter.InstructedBy | filters/anki_db_creator.py:197-227 | a description that does not decode to a dict leaves the body alone; only "messages" changes |
| AnkiDbFilter.Instructed | filters/anki_db_creator.py:229-254 | the body is left alone or its messages are the injected ones; only "messages" changes |
| AnkiDbFilter.PreparedInjects | filters/anki_db_creator.py:186-249 | enabled, with a dict description and dict messages, the instruction is appended to the first system message or put first in a new one |
| AnkiDbFilter.InstructedInjects | filters/anki_db_creator.py:229-249 | dict messages take the instruction in the first system message, or in a new first one |
| AnkiDbFilter.Inlet | filters/anki_db_creator.py:173-256 | the method computes `Prepared` |
| AnkiDbFilter.LineEnds | filters/anki_db_creator.py:350-352 | the letters that tell the two closing lines of the footer apart |
| AnkiDbFilter.SuffixDiffers | filters/anki_db_creator.py:350-352 | a text ending in one line does not end in another whose end differs |
| AnkiDbFilter.FooterListsPackage | filters/anki_db_creator.py:346-352 | the footer ends with the package line exactly when the package was made |
| AnkiDbFilter.CleanedRemovesBlocks | filters/anki_db_creator.py:342-343 | removing the JSON blocks of a content that has one leaves a strictly shorter subsequence of it |
| AnkiDbFilter.Answered | filters/anki_db_creator.py:286-319 | a card answer is the last assistant message, its string content and the cards of its first JSON block that parses; none when there is no assistant message |
| AnkiDbFilter.NoBlockNoAnswer | filters/anki_db_creator.py:302-319 | a last assistant message without a JSON tag, or whose first block does not parse, gives no answer |
| AnkiDbFilter.Existing | filters/anki_db_creator.py:90-99 | a chat without a readable cards file has no cards; otherwise the file's value |
| AnkiDbFilter.Merged | filters/anki_db_creator.py:324-325 | a list of earlier cards is followed by the new ones; any other value cannot be merged |
| AnkiDbFilter.Packaged | filters/anki_db_creator.py:140-171 | a package exists exactly when genanki is there, the description and cards make one and the file is written; it is that package (also lines 333-339) |
| AnkiDbFilter.Saved | filters/anki_db_creator.py:329-354 | the chat's cards file holds all the cards; the package is stored only when made; only "messages" changes |
| AnkiDbFilter.Accumulated | filters/anki_db_creator.py:302-354 | without a card answer, or with earlier cards that are not a list, nothing changes; only "messages" changes |
| AnkiDbFilter.Stored | filters/anki_db_creator.py:258-363 | only reading the user's valves can raise; a disabled user, a missing chat id or no messages leave the files and the body alone; only "messages" changes |
| AnkiDbFilter.StoredAccumulates | filters/anki_db_creator.py:282-300 | enabled, with a chat id and messages, the outlet accumulates |
| AnkiDbFilter.AccumulatedSaves | filters/anki_db_creator.py:324-354 | with an answer and earlier cards, the new cards follow the earlier ones in what is saved |
| AnkiDbFilter.DeckAccumulates | filters/anki_db_creator.py:324-339 | the chat's cards become the earlier ones followed by the new ones, other chats' files are untouched, and the package is made from all of them |
| AnkiDbFilter.SavedCards | filters/anki_db_creator.py:329-330 | reading back the chat's file gives all the cards; other chats read as before |
| AnkiDbFilter.ExistingElsewhere | filters/anki_db_creator.py:86-105 | writing one chat's file does not change what another chat reads |
| AnkiDbFilter.AnswerRewritten | filters/anki_db_creator.py:341-354 | the answer becomes its content without the JSON blocks, stripped, then the footer with both counts, and it lists the package exactly when one was made |
| AnkiDbFilter.CardFiles.Save | filters/anki_db_creator.py:101-105 | the chat's cards file now holds the list; nothing else changes |
| AnkiDbFilter.CardFiles.CreateApkg | filters/anki_db_creator.py:140-171 | the package is written exactly when `Packaged` gives one; the cards files do not change (also lines 333-339) |
| AnkiDbFilter.CardFiles.Outlet | filters/anki_db_creator.py:258-363 | the files and the body become those of `Stored`; on an error nothing changes |
| AnkiDbFilter.CardFiles.Accumulate | filters/anki_db_creator.py:302-354 | the files and the body become those of `Accumulated` |
| AnkiDbFilter.FindAnswer | filters/anki_db_creator.py:291-319 | the loop computes `Answered` |
| AnkiDbAction.Reply | actions/anki_db_creator.py:201-204 | every answer is a dict whose only key is "content" |
| AnkiDbAction.Outcome | actions/anki_db_creator.py:190-251 | every outcome is a dict whose only key is "content" |
| AnkiDbAction.DownloadExactlyWhenPackaged | actions/anki_db_creator.py:196-247 | the answer is the list with the download exactly when the conversation holds cards and the package is made from them |
| AnkiDbAction.DownloadDescribed | actions/anki_db_creator.py:137-157 | the download comes with the number of cards and the deck name; the package has one note per card in that deck; its file name has no space and ends in ".apkg" (also lines 232-247) |
| AnkiDbAction.PackagedCardsAreDicts | actions/anki_db_creator.py:128-157 | a package is only made with genanki, from cards that are all dicts and a description naming at least one field |
| AnkiDbAction.FailuresMarked | actions/anki_db_creator.py:201-251 | every answer other than the download is a text starting with a cross mark |
| AnkiDbAction.NoFlashcardsExactlyWhenNone | actions/anki_db_creator.py:196-204 | the "No flashcards" answer comes exactly from a conversation without cards |
| AnkiDbAction.MissingGenanki | actions/anki_db_creator.py:128-131 | without genanki a conversation with cards gets the error and the hint to install it (also lines 213-218) |
| AnkiDbAction.BadMessagesUnexpected | actions/anki_db_creator.py:64-73 | messages that cannot be read as dicts give the unexpected error (also lines 249-251) |
| AnkiDbAction.Action | actions/anki_db_creator.py:58-251 | the loops compute `Acted` |
| AnkiDeckAction.Outcome | actions/anki_deck_creator_action.py:191-280 | a returned answer is a dict whose only key is "content" |
| AnkiDeckAction.NothingOnSuccessOrUnexpected | actions/anki_deck_creator_action.py:191-280 | the action returns nothing exactly on success or an unexpected error; otherwise it answers as the database action would |
| AnkiDeckAction.DownloadOnSuccess | actions/anki_deck_creator_action.py:224-269 | a download is asked for exactly on success with an event call, and it is the encoded package under the deck's file name |
| AnkiDeckAction.DetailsNotInCardsBlock | actions/anki_deck_creator_action.py:62-68 | the `<details>` tag does not occur in an `<anki_cards>` block, even ignoring case |
| AnkiDeckAction.CardsBlocksNotFound | actions/anki_deck_creator_action.py:59-87 | a conversation whose answers keep their cards in `<anki_cards>` blocks, as the docstring says, gets the "No flashcards" answer (also lines 197-205) |
| AnkiDeckAction.Action | actions/anki_deck_creator_action.py:59-280 | the loops compute `Acted` |
| EnvVars.Lookup | tools/wdoc_tools.py:338-339 | a variable is found exactly when it is set, with its value |
| EnvVars.Put | tools/wdoc_tools.py:347-352 | putting back a record sets the variable, or deletes it for `None`, and leaves every other variable alone |
| EnvVars.Managed | tools/wdoc_tools.py:332 | the managed variables have unique names and text values, no more of them than were given |
| EnvVars.ManagedNames | tools/wdoc_tools.py:332 | a name is managed exactly when it is the upper-case name of a variable given |
| EnvVars.ManagedValue | tools/wdoc_tools.py:332 | a managed variable holds the text of the last value given under its upper-case name |
| EnvVars.EnteredOthers | tools/wdoc_tools.py:335-343 | after entering, a variable the context does not manage keeps its value and its record |
| EnvVars.EnteredManaged | tools/wdoc_tools.py:335-343 | after entering, a managed variable holds its new value and its former value, or its absence, is recorded |
| EnvVars.ExitedRestores | tools/wdoc_tools.py:345-352 | with every key recorded, leaving raises nothing, puts each key back as recorded and leaves other variables alone |
| EnvVars.ExitedRaises | tools/wdoc_tools.py:347-348 | a key without a record makes leaving raise |
| EnvVars.ExitedPrefixRaises | tools/wdoc_tools.py:347-352 | once leaving raises on some key, the later keys are not restored |
| EnvVars.EnterExitRoundTrip | tools/wdoc_tools.py:335-352 | entering and then leaving gives back the environment as it was, without an error |
| EnvVars.Environment.constructor | tools/wdoc_tools.py:338-352 | the process environment starts with the variables given |
| EnvVars.EnvVarContext.constructor | tools/wdoc_tools.py:324-333 | the context manages the upper-cased variables with text values and has no record yet |
| EnvVars.EnvVarContext.Enter | tools/wdoc_tools.py:335-343 | the records and the environment become those of `Entered`; the managed variables do not change |
| EnvVars.EnvVarContext.Exit | tools/wdoc_tools.py:345-352 | the environment and the error become those of `Exited` |
| EnvVars.EnvVarContext.Around | tools/wdoc_tools.py:187-202 | a `with` block whose body leaves the environment alone ends with the environment as before and no error (also lines 275-290) |
| WdocTools.UpdatedOk | tools/wdoc_tools.py:123-142 | the valves are accepted exactly when the three texts load as dicts and the four switches are booleans; the tool then holds those dicts and switches |
| WdocTools.UpdatedWritesSummaryFirst | tools/wdoc_tools.py:125-126 | a summary text that loads is stored whatever fails later; one that does not load leaves the tool as it was |
| WdocTools.DefaultsAccepted | tools/wdoc_tools.py:70-142 | the default valves are accepted, with empty keyword arguments and the default environment |
| WdocTools.Override | tools/wdoc_tools.py:169-172 | an accepted override is the user's dict, or a string that loads as one (also lines 257-260) |
| WdocTools.Substituted | tools/wdoc_tools.py:183-185 | the substitution raises exactly when the name is not a string and some value holds `$USER`; otherwise the names stay and each value holding `$USER` has it replaced by the name (also lines 271-273) |
| WdocTools.Merged | tools/wdoc_tools.py:179-182 | an accepted merge never has a user environment setting `WDOC_PRIVATE_MODE` (also lines 267-270) |
| WdocTools.RefusedWhenLocked | tools/wdoc_tools.py:163-166 | with overrides not allowed, a user valve other than "{}" is refused with the valves shown (also lines 251-254) |
| WdocTools.UntouchedKeepsValves | tools/wdoc_tools.py:163-185 | a user whose valves are all "{}" gets the valves' keyword arguments and environment, with the name substituted |
| WdocTools.OverrideOfBraces | tools/wdoc_tools.py:169-171 | user valves that are all "{}" override nothing |
| WdocTools.OverrideWins | tools/wdoc_tools.py:168-173 | a keyword argument the user overrides takes the user's value; every other keeps the valves' (also lines 256-261) |
| WdocTools.PrivateModeRefused | tools/wdoc_tools.py:179-181 | a user environment setting `WDOC_PRIVATE_MODE` is refused; an accepted call never comes from one (also lines 267-269) |
| WdocTools.LowerCasePrivateModeSet | tools/wdoc_tools.py:179-182 | a user environment naming `wdoc_private_mode` in lower case passes the check, and the context then sets `WDOC_PRIVATE_MODE` (also line 332) |
| WdocTools.OneUserVariableAccepted | tools/wdoc_tools.py:163-185 | with overrides allowed, one user variable other than `WDOC_PRIVATE_MODE` is accepted and merged, the keyword arguments unchanged |
| WdocTools.ByUserAllowed | tools/wdoc_tools.py:164-185 | with overrides allowed and both overrides loaded, the call is their merge |
| WdocTools.OneUserVariableOverrides | tools/wdoc_tools.py:169-178 | a user valve holding only an environment override overrides no keyword argument and that one variable |
| WdocTools.MergedOne | tools/wdoc_tools.py:179-185 | one user variable other than `WDOC_PRIVATE_MODE` is merged and substituted |
| WdocTools.SubstitutedKeepsOne | tools/wdoc_tools.py:182-185 | the substitution keeps a merged variable |
| WdocTools.ManagedUpper | tools/wdoc_tools.py:332 | a variable is managed under its upper-case name |
| WdocTools.SetsPrivate | tools/wdoc_tools.py:179-181 | the loop finds `WDOC_PRIVATE_MODE` exactly when the user environment sets it |
| WdocTools.Substitute | tools/wdoc_tools.py:183-185 | the loop computes `Substituted` |
| WdocTools.Prepare | tools/wdoc_tools.py:163-185 | the method computes `Prepared` (also lines 251-273) |
| WdocTools.PageText | tools/wdoc_tools.py:204-207 | one document's page is taken as it is; several, or none, are joined and must all be strings; none gives the empty text |
| WdocTools.Title | tools/wdoc_tools.py:209-211 | a title exists exactly when the first document has metadata with a title |
| WdocTools.Parsed | tools/wdoc_tools.py:204-229 | parsing succeeds exactly when the page text can be made; with citations the answer is the fixed notice |
| WdocTools.NothingParsed | tools/wdoc_tools.py:204-215 | no documents give an empty page under the url |
| WdocTools.OneDocumentUntitled | tools/wdoc_tools.py:204-215 | one document without metadata is shown as it is, under the url |
| WdocTools.OneDocumentTitled | tools/wdoc_tools.py:204-212 | one document with a title is shown as it is, under that title |
| WdocTools.SeveralDocumentsJoined | tools/wdoc_tools.py:206-215 | several untitled documents are joined by blank lines, under the url |
| WdocTools.Summarized | tools/wdoc_tools.py:292-319 | a summary needs the four results; with citations the answer is the fixed notice, otherwise it starts with the heading and the url |
| WdocTools.SeenManaged | tools/wdoc_tools.py:332-343 | inside the context a managed variable holds its text and every other is as before (also lines 187 and 275) |
| WdocTools.ParseOutcome | tools/wdoc_tools.py:144-229 | a successful parse needs accepted valves, an accepted user and keyword arguments that do not clash with the call's own |
| WdocTools.SummaryOutcome | tools/wdoc_tools.py:231-319 | a successful summary needs accepted valves, an accepted user and keyword arguments that do not clash with the call's own |
| WdocTools.InContext | tools/wdoc_tools.py:187-202 | wdoc runs with the context's variables set, and the environment is put back afterwards (also lines 275-290) |
| WdocTools.WdocTool.constructor | tools/wdoc_tools.py:118-121 | the tool starts with the default valves and the settings of `on_valves_updated` |
| WdocTools.WdocTool.OnValvesUpdated | tools/wdoc_tools.py:123-142 | the settings and the error become those of `Updated`; the valves do not change |
| WdocTools.WdocTool.ParseUrl | tools/wdoc_tools.py:144-229 | the tool reloads its valves, the environment is as before, and the answer is `ParseOutcome` |
| WdocTools.WdocTool.SummarizeUrl | tools/wdoc_tools.py:231-319 | the tool reloads its valves, the environment is as before, and the answer is `SummaryOutcome` |
| AnkiTool.Docstring | tools/anki_tool.py:19-34 | the tool's description holds the fields description as it is |
| AnkiTool.InfixBetween | tools/anki_tool.py:21-34 | a text occurs in any text built around it |
| AnkiTool.ToolFunction.constructor | tools/anki_tool.py:112-132 | the function starts with the docstring given |
| AnkiTool.Answered | tools/anki_tool.py:188-201 | the result is returned exactly when the server answered a dict with no truthy error and a result, and it is that result |
| AnkiTool.Connection.constructor | tools/anki_tool.py:189-190 | a new connection has sent nothing |
| AnkiTool.Request | tools/anki_tool.py:179-201 | one request is sent, its envelope naming the action, the parameters and version 6, and the answer is the server's as `Answered` reads it |
| AnkiTool.TagList | tools/anki_tool.py:163 | the tags become a list of the same strings |
| AnkiTool.Calls | tools/anki_tool.py:155-169 | a card makes three calls |
| AnkiTool.Enveloped | tools/anki_tool.py:181-186 | each call becomes its envelope, all to the same address |
| AnkiTool.Requests | tools/anki_tool.py:155-169 | a card makes three requests |
| AnkiTool.Exchange | tools/anki_tool.py:151-176 | the requests sent are a non-empty prefix, each answered but the last sent when it falls short; the answer is `addNote`'s when all three succeed and the empty list otherwise |
| AnkiTool.ExchangeAllOrNothing | tools/anki_tool.py:151-176 | all three requests answered give every request sent and `addNote`'s answer; any failure gives the empty list |
| AnkiTool.ExchangeSteps | tools/anki_tool.py:151-176 | a failing request is the last one sent and the answer is then the empty list |
| AnkiTool.InfixBefore | tools/anki_tool.py:144-147 | a text occurs in a text that starts with it after a prefix |
| AnkiTool.InfixAfter | tools/anki_tool.py:144-147 | a text occurs in a text that holds it after a prefix |
| AnkiTool.StaleMessageNames | tools/anki_tool.py:144-147 | the stale-description message names the new description, and the old one when it differs |
| AnkiTool.Created | tools/anki_tool.py:122-176 | empty, non-dict or non-string contents return `None` sending nothing; valid contents under a stale docstring raise the stale message, sending nothing; otherwise the requests are sent |
| AnkiTool.ValidCardReachesAnki | tools/anki_tool.py:135-176 | valid contents under a current docstring never raise, send a prefix of the card's three requests and return what the exchange gives |
| AnkiTool.FreshDocstringNeverRaises | tools/anki_tool.py:109-149 | under the docstring the valves wrote, the stale check never raises |
| AnkiTool.Send | tools/anki_tool.py:151-176 | the requests are logged on the connection as `Exchange` sends them, and the answer is the exchange's |
| AnkiTool.Tool.constructor | tools/anki_tool.py:118-120 | the tool starts with the default valves, their docstring written and their description remembered |
| AnkiTool.Tool.SetValves | tools/anki_tool.py:109-116 | setting the valves rewrites the docstring from them, so it is current; the remembered description does not change |
| AnkiTool.Tool.CreateFlashcard | tools/anki_tool.py:122-176 | the method returns what `Created` gives and logs the requests it sends |

## Left out

- Network I/O is left out. This covers the LiteLLM requests, the Ankiconnect
  transport (aiohttp) and its timeout; upstream answers are given as inputs.
- The Langfuse client is left out, because it is a foreign library. The
  pipeline's traces, tags and observations are an abstract state.
- genanki, `random.randrange`, temporary files and base64 are left out,
  because they are foreign or binary. A package is the model, deck and notes
  it is written from, and `written` says whether writing it succeeded.
- AnkiDbAction.Outcome and AnkiDeckAction.Outcome: the two actions cannot
  fail to write the package to its temporary file. Their "❌ Error creating
  .apkg file" answer therefore comes only from a failure to build the notes.
  Only the database filter has a `written` flag for the write.
- The JavaScript download snippet of the deck action is left out, because
  it is browser code. The download is its file name and data.
- The directory layout and the reading and writing of `cards.json` are left
  out. The card directory is a map from chat ids to the file's JSON value
  and package.
- A `cards.json` whose value is not a list cannot be merged, and the outlet
  then leaves everything alone. The model does not follow the `TypeError`
  of `list + dict` further than that.
- wdoc is left out: its installation, import and unimport, `parse_file` and
  summaries. Its results are parameters.
- Logging (`print`, loguru) and citations are left out, because they are
  notification sinks. Event emitters are left out as objects: a status is
  modelled as a value the plugin sends. Statuses are modelled for the three
  pipes and for the InfiniteChat and WarnIfLongChat inlets, debug statuses
  included. The statuses of the other plugins are not modelled: these are
  DontAccumulateThoughts, the two add_metadata filters, CombineUserMessages,
  the Anki filters, actions and tool, and the wdoc tool.
- Time is left out. This covers `time.sleep` in WarnIfLongChat and the cost
  pipe's clock-based status clearing, which is modelled as one final
  notice.
- Exception message texts are left out, because they are not part of any
  promise. An exception is its kind. The model keeps only the messages the
  plugins show to the user (for example the stale-description message of
  the Anki tool and the refusal of user valves).
- LitellmFilter.Sorted: accepts only strings or only integers. Python also
  sorts bools mixed with numbers (True as 1) and lists of lists (compared item
  by item), which the model turns into a TypeError. Such tag lists are not
  expected from the valve.
- AnkiTool.Answered: a truthy `error` field that is not a string is raised
  with an empty message rather than with its `str`.
- Floating point is left out. The summary's cost and reading time are
  formatted by the `fixed` parameter.
- General regular expressions are left out. Each shipped default pattern is
  a literal search.
- Case folding is ASCII only. For IGNORECASE and `str.upper`, the model
  folds only ASCII letters.
- `functools.cache` and `lru_cache` are left out, along with the aliasing of
  the lists and dicts they return. Every call is modelled as a fresh value.
- Lists shared by reference are not tracked. This covers, for example, the
  `extend` in the first add_metadata filter through an alias. Values are
  copied.
- AddMetadata.Dedup: Python's `list(set(...))` leaves the order unspecified.
  The model keeps first occurrences, and only order-free facts about it are
  stated.
- Dicts are assumed to hold unique keys where it matters. JSON objects are
  ordered entry lists.
- The json-dump fallback in the second add_metadata filter is left out,
  because it only logs.
- Runtime reflection is left out. The Anki tool's docstring mutation is a
  `doc` field of a `ToolFunction` object.
- `dict(__user__["valves"])` of a value that is not a mapping is modelled as
  a `TypeError`.
- AnkiDeckFilter.InstructionLayout is stated only for field descriptions
  that do not themselves contain the example placeholder. The function
  `Instruction` models the `replace` calls as written for every input.
- ThinkingFilter.Outlet, HideThinkingFilter.Inlet, HideThinkingFilter.Outlet,
  ClaudeCachingFilter.Inlet and WipClaudeCachingFilter.Inlet: a missing
  "messages" key is modelled, but a "messages" value is taken to be a list.
  Python iterating over a string, dict or number there is not modelled.
- LangfusePipeline.Pipeline.Inlet and LangfusePipeline.Pipeline.Outlet: a
  chat id is any JSON value. The model stores a list or dict chat id as a
  registry key, where Python raises a TypeError because the value is
  unhashable.
- AnkiDeckFilter.Prepared: messages that are not a list return the body.
  The model does not follow Python iterating over a string or dict, whose
  error the same `try` catches.
- The `re.sub` cleanups are not idempotent on every input. Only the round
  trips the plugins rely on are proved.
- The wdoc tool's constructor discards the error of its `on_valves_updated`
  call, because Dafny constructors have no error result. The settings are
  those of `Updated`.
- filters/hide_thinking_filter.py is not part of this model, because its
  Valves fields are malformed and it cannot be loaded.
- `hide_thought` in filters/hide_thinking.py is not modelled, because it
  uses an attribute the class never defines.
- Plugins outside the modelled core are not part of this model. These are:
  - filters/WIP_languse_filter.py and filters/userToolsOutput.py;
  - tools/wdoc_scraper.py and WIP_pipelines/WDoc_pipeline.py;
  - pipelines/litellm_pipe.py;
  - the template and debug plugins.
