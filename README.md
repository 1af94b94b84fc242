# A verified model of a small agent toolkit

This project models, in Dafny, the core of a Python assistant that answers
questions with web sources and works through development goals step by step:

- **Action agent** (`Actions`, `src/agent/action_agent.py`): the
  plan–execute–observe loop of `ActionAgent.run_task`. It asks the model for
  1–3 steps, normalises them, and stops on `done`, on an empty plan or on a
  repeated plan. Otherwise it runs every step (`cmd` through PowerShell,
  `write` to a file), logs each result and stops early on the pygame
  smoke-test greeting. Also modelled: path normalisation and the venv
  rewriting of commands.
- **Chat agent** (`Chat`, `src/agent/agent.py`): the routing of
  `handle_query`, which handles conversation recall, answers from the cached
  pages, plans, answers directly, or searches and answers. Also modelled:
  plan sanitising, the sources label and the fallback summary.
- **Conversation memory** (`Memory`, `src/agent/memory.py`): the rolling
  window and its bullet rendering.
- **Orchestrator** (`Orchestration`, `src/agent/orchestrator.py`): the
  normalised decision dict.
- **Chat client** (`Llm`, `src/agent/llm.py`): the system-prompt prefix, the
  Ollama retry loop and the JSON extraction of `chat_json`.
- **Configuration** (`Config`, `src/agent/config.py`): the defaults, the
  recursive merge of the user file, the Azure environment overrides and the
  dotted-path lookup `cfg`.
- **Web search** (`Search`, `src/agent/web_search.py`):
  - the URL-de-duplicating aggregation over providers;
  - the first-query token-overlap score;
  - the stable descending ranking;
  - the capped fetch loop.
- **Snake game** (`Snake`, `workspace/snake_game/snake.py`): the grid with
  wrap-around, the turn rule, the move/eat/collide step and food placement.

The supporting modules model Python itself:
- `Text` covers slicing with negative bounds, `strip`, `lower`, `find`,
  `replace`, `split` and `join`.
- `Json` covers dicts as insertion-ordered association lists, truthiness,
  `get`, `d[k] = v`, and `str`/`repr` of values.
- `Wrappers` holds `Option` and `Result`.

A Python exception becomes an `Err` value wherever the source lets it
propagate or catches it. The model and network calls, PowerShell, the file
system, the environment and the random draws are inputs (function-valued
oracles or sequences).

Objects whose fields the source updates become classes:
`Memory.ConversationMemory`, `Chat.ChatAgent`, `Actions.ActionAgent` and
`Snake.Game`. Each is proved against a specification function of the old
state. Loops become methods with invariants, for example:
- `Actions.ActionAgent.Plan`, `ExecuteSteps` and `RewriteCmdForVenv`;
- `Search.Aggregate` and `Search.FetchPages`;
- `Config.Merge`, `Config.Cfg` and `Llm.OllamaChat`;
- `Snake.RandomFoodPosition`.

Some behaviours of the code, each proved:
- The plan signature does not separate its fields, so two different plans can
  share one signature (`Actions.SignatureCollision`).
- Plan steps are cut to three before they are filtered, so a valid fourth step
  is lost even when the first three are all dropped
  (`Actions.TruncateBeforeFilter`).
- Only one `workspace/` prefix is removed from a path
  (`Actions.NormalizeRelNotIdempotent`).
- Two arrow keys within one frame can reverse the snake
  (`Snake.ChainedKeysReverse`).
- Moving into the cell the tail is about to leave ends the game
  (`Snake.CollisionEnds`).

- When the step budget runs out, the loop adds no closing line. The result
  is the joined summary, or "Task complete (see logs)." when nothing was
  logged (`Actions.NoBudgetNoRounds`).
- A planning failure, even in the first round, does not reach the caller:
  `run_task` catches it, stops the loop and returns the summary
  (`Actions.Round`).
- The venv path put into a command is itself subject to the removal of
  `workspace\`, so for a working directory named `workspace` the command
  runs `<parent>\.venv\Scripts\python.exe`, outside that directory
  (`Actions.RewriteVenvPythonStripped`).
- A `write` step whose path is `workspace/` is normalised to the empty path
  and handed to the writer as is (`Actions.WriteToWorkspaceDir`).

## Model

| member | source | states |
|---|---|---|
| Memory.OrEmpty | src/agent/memory.py:11-15 | `content or ""`: a missing content becomes the empty text, a present one is kept |
| Memory.Trimmed | src/agent/memory.py:17-21 | after an append the window is a suffix of the history; with a positive cap its length is the cap or the whole history; a zero cap keeps everything (`[-0:]`) |
| Memory.WindowIsNewest | src/agent/memory.py:17-21 | with a positive cap, the rolling window `Window` after any number of appends is exactly the newest `max_messages` messages, in order |
| Memory.NewestAfterAppend | src/agent/memory.py:17-21 | trimming the previous window plus the new message gives the newest messages of the whole history |
| Memory.Clip | src/agent/memory.py:33-34 | a text within the limit is kept; a longer one is cut to `max_chars - 1` characters plus an ellipsis, so it never exceeds the limit |
| Memory.Bullets | src/agent/memory.py:29-35 | one bullet per recent message, in order |
| Memory.BulletIsOneLine | src/agent/memory.py:31-35 | a rendered `Bullet` never contains a newline and starts with `- <role>: ` |
| Memory.BulletLines | src/agent/memory.py:36 | splitting the joined bullets on newlines gives the bullets back, and the text is non-empty when there is a message |
| Memory.ConversationMemory.constructor | src/agent/memory.py:7-9 | a new memory is empty and keeps its cap |
| Memory.ConversationMemory.Append | src/agent/memory.py:17-21 | the messages become the trimmed history plus the new message; the newest message is last |
| Memory.ConversationMemory.AddUser | src/agent/memory.py:11-12 | appends a user message with `content or ""` |
| Memory.ConversationMemory.AddAssistant | src/agent/memory.py:14-15 | appends an assistant message with `content or ""` |
| Memory.ConversationMemory.Recent | src/agent/memory.py:23-26 | nothing for `n <= 0`, otherwise the newest `min(n, len)` messages |
| Memory.ConversationMemory.AsBullets | src/agent/memory.py:28-36 | the newline-joined bullets of the recent messages |
| Orchestration.Clarify | src/agent/orchestrator.py:35-39 | a string clarification is stripped, and a blank one or a non-string becomes None |
| Orchestration.Decide | src/agent/orchestrator.py:31-48 | fails exactly when the reply is not a dict; otherwise holds the five keys in order, with the booleans coerced, `clarify` cleaned and `goal`/`reason` defaulting to "" |
| Orchestration.DecisionShape | src/agent/orchestrator.py:33-41 | the flags are booleans, `clarify` is None or non-empty text, and `goal`/`reason` are truthy or "" |
| Orchestration.DecideIdempotent | src/agent/orchestrator.py:27-48 | normalising a decision a second time changes nothing |
| Orchestration.LookupFive | src/agent/orchestrator.py:42-48 | each of the five keys reads back its own entry of the decision |
| Llm.WithSystem | src/agent/llm.py:19 | a non-empty system prompt is prepended as a system turn; otherwise the messages are unchanged |
| Llm.Content | src/agent/llm.py:43-45 | a non-dict reply or a non-dict `message` raises the AttributeError of `.get`; a missing `message` or a missing `content` gives ""; otherwise the `content` value is returned |
| Llm.RetrySuccess | src/agent/llm.py:28-34 | a successful retry loop returns the data of the first successful attempt, all earlier attempts having failed |
| Llm.RetryFailure | src/agent/llm.py:35-41 | a failed loop saw every attempt fail and re-raises the last error |
| Llm.RetryReachesFirstSuccess | src/agent/llm.py:28-34 | the retry loop `RetryFrom` returns the data of the first successful attempt from any starting attempt |
| Llm.RetryAllFail | src/agent/llm.py:35-41 | when every remaining attempt fails, `RetryFrom` re-raises the last attempt's error |
| Llm.OllamaReply | src/agent/llm.py:28-45 | the first successful attempt's `message.content` is the reply; if all `max_retries + 1` attempts fail, the last error is raised; a negative retry count leaves `data` unbound |
| Llm.OllamaChat | src/agent/llm.py:15-45 | the reply is that of the retry loop over the prompt with the system turn; at most `max_retries + 1` attempts, every one before the last having failed |
| Llm.BraceCandidate | src/agent/llm.py:58-62 | a candidate exists exactly when some `{` precedes some `}`; it is a substring from a brace to a brace |
| Llm.NoBracePair | src/agent/llm.py:58-60 | when the `find`/`rfind` guard rejects, no `{` precedes any `}` |
| Llm.ChatJson | src/agent/llm.py:47-65 | text that parses is returned as is; otherwise the brace candidate's parse is used when it succeeds, and the original parse error is re-raised in every other case |
| Config.Merge | src/agent/config.py:74-79 | the loop over the user keys computes the recursive merge `MergeFrom` |
| Config.MergeEntry | src/agent/config.py:76-79 | dicts on both sides merge recursively; anything else overwrites |
| Config.MergeStep | src/agent/config.py:75-79 | one iteration stores the merged value under the key and continues with the next key |
| Config.MergeKeys | src/agent/config.py:74-79 | after the merge a key is present exactly when it was in the destination or in the user file |
| Config.MergeUntouched | src/agent/config.py:74-79 | a key the user file does not mention keeps its default |
| Config.MergeValue | src/agent/config.py:74-79 | each user key holds the merge of its default and the user value |
| Config.MergeDistinct | src/agent/config.py:74-79 | the merged configuration never holds a key twice |
| Config.ResolveThree | src/agent/config.py:106-112 | three successful nested lookups make `Resolve` read the value at a three-segment path |
| Config.ResolveDefault | src/agent/config.py:106-112 | a present path ignores the default; a path broken by a missing key or a non-dict gives the default |
| Config.ResolveAppend | src/agent/config.py:106-112 | looking up `a.b` is looking up `b` in the value at `a` |
| Config.Cfg | src/agent/config.py:106-112 | the loop over the dot-separated segments resolves the path in the configuration |
| Config.FileValueWins | src/agent/config.py:74-80 | a scalar set at top level in the user file is what `cfg` reads back |
| Config.SetNested | src/agent/config.py:86-99 | `setdefault(...).setdefault(...)[key] = value` makes the nested path read `value` and leaves the other top-level keys; it raises exactly when a non-dict is in the way, with the AttributeError of `setdefault` for the outer value and the TypeError of item assignment for the inner one |
| Config.SetNestedKeepsSiblings | src/agent/config.py:86-99 | the other keys of the inner dict and the other entries of the outer dict read as before |
| Config.NoEnvNoChange | src/agent/config.py:84-99 | with no Azure variable set, `ApplyEnv` leaves the configuration unchanged |
| Config.EnvLeavesOtherKeys | src/agent/config.py:84-99 | the overrides touch no top-level key other than `llm` |
| Config.EnvOverridesWin | src/agent/config.py:84-99 | each of `AZURE_API_KEY`, `AZURE_ENDPOINT`, `AZURE_DEPLOYMENT` and `AZURE_API_VERSION` that is set and non-empty is what its `llm.azure` key reads after `ApplyEnv` |
| Config.ApplyEnvReads | src/agent/config.py:84-99 | each `llm.azure` key reads its variable when that is set and non-empty, and its earlier value otherwise |
| Config.UnsetEnvKeepsFile | src/agent/config.py:84-99 | an unset or empty variable leaves the file's (or default) value of its key |
| Config.BrokenFileKeepsDefaults | src/agent/config.py:64-100 | `LoadConfig` with a missing, unreadable or non-dict file gives the defaults of `DefaultConfig`, then the overrides |
| Config.DefaultProvider | src/agent/config.py:12 | the default provider is `ollama` |
| Config.DefaultFetchMaxPages | src/agent/config.py:41 | the default page cap is 3 |
| Search.AlnumPrefix | src/agent/web_search.py:70 | the longest run of token characters at the start of a text |
| Search.Tokens | src/agent/web_search.py:70 | `re.findall(r"[a-zA-Z0-9]+")`: non-empty tokens made of token characters only; `Search.TokensAreMaximalRuns` adds that they are the maximal runs, left to right |
| Search.TokensAreMaximalRuns | src/agent/web_search.py:70 | the tokens are exactly the maximal runs of token characters, at increasing positions, and nothing between them is a token character |
| Search.TokensOccur | src/agent/web_search.py:70 | every token occurs in the text it came from |
| Search.NoTokens | src/agent/web_search.py:70 | a text without token characters has no tokens |
| Search.Overlaps | src/agent/web_search.py:72 | the overlap count never exceeds the number of tokens |
| Search.MatchText | src/agent/web_search.py:64-66 | the matched text contains the lower-cased title and the lower-cased snippet |
| Search.Score | src/agent/web_search.py:61-75 | the score is between 0 and 5, and 0 without queries |
| Search.FirstQueryOnly | src/agent/web_search.py:69-74 | queries after the first never change the score (the loop breaks) |
| Search.FullOverlap | src/agent/web_search.py:72 | tokens that all occur in the text score one point each |
| Search.NoOverlap | src/agent/web_search.py:72 | tokens none of which occur score nothing |
| Search.RankScore | src/agent/web_search.py:61-75 | the loop with `break` computes the first-query score |
| Search.UrlsAppend | src/agent/web_search.py:150-151 | adding an item adds its URL to the seen set |
| Search.Dedup | src/agent/web_search.py:147-151 | the aggregated items have non-empty, pairwise distinct URLs |
| Search.DedupCovers | src/agent/web_search.py:147-151 | every non-empty URL of the hits is represented |
| Search.DedupFirst | src/agent/web_search.py:147-151 | the item kept for a URL is its first occurrence among the hits |
| Search.DedupOrder | src/agent/web_search.py:147-151 | the kept items appear in the order they were found |
| Search.StreamStep | src/agent/web_search.py:144-173 | in the hit stream `Stream`, the hits of one more query come after those of the earlier queries |
| Search.InsertDesc | src/agent/web_search.py:175 | insertion adds exactly the new item |
| Search.SortDesc | src/agent/web_search.py:175 | the ranking is a permutation of the aggregated items |
| Search.InsertSorted | src/agent/web_search.py:175 | insertion keeps the order descending |
| Search.InsertWithKey | src/agent/web_search.py:175 | an item inserted ahead of the items with no higher score precedes the earlier items of its own score |
| Search.SortDescSorted | src/agent/web_search.py:175 | the ranking is descending by score |
| Search.SortDescStable | src/agent/web_search.py:175 | items with the same score keep their order of discovery |
| Search.Ranked | src/agent/web_search.py:175 | `sorted(..., reverse=True)` by score: a permutation, descending by score, with equal scores in their order of discovery |
| Search.RankedPrefixUrls | src/agent/web_search.py:175-183 | every URL among the top ranked items was among the aggregated results |
| Search.FetchUrl | src/agent/web_search.py:78-95 | a failed request gives an empty title and an `<fetch_error: ...>` marker; a parsed page gives its title and text; an exception from the HTML parser, outside the `try`, propagates |
| Search.PageOf | src/agent/web_search.py:190-195 | a page keeps the item's URL and snippet, takes the fetched title or else the item's, and its content is a prefix of the text of length `min(cap, len)` for a non-negative cap |
| Search.Pages | src/agent/web_search.py:181-196 | raises exactly when some item's fetch raises; otherwise at most one page per item, each from an item's URL, with content cut to the document cap; `Search.PagesAppendOne` and `Search.PagesConcat` give the pages item by item, in ranked order |
| Search.PagesAppendOne | src/agent/web_search.py:183-196 | after the earlier items, one more item raises its fetch's exception, or adds its page when the fetched text is non-empty and nothing otherwise; an earlier exception stands |
| Search.PagesConcat | src/agent/web_search.py:183-196 | fetching two lists of items raises the first list's exception, else the second's, else gives the pages of the first followed by those of the second |
| Search.FirstRaiseWins | src/agent/web_search.py:183-196 | the first fetch that raises ends the loop with its exception, whatever follows |
| Search.FailedFetchIsPage | src/agent/web_search.py:84-196 | an error marker is non-empty text, so a failed request still yields a page |
| Search.AllEmptyNoPages | src/agent/web_search.py:187-190 | when every page is fetched with empty text there are no pages |
| Search.PageCap | src/agent/web_search.py:182 | at most `fetch_max_pages` pages come back when no fetch raises |
| Search.Admit | src/agent/web_search.py:146-173 | adding a provider's items keeps the aggregated list the de-duplicated stream and `seen` its URL set |
| Search.DedupStep | src/agent/web_search.py:147-151 | one more hit is kept exactly when its URL is non-empty and new |
| Search.Aggregate | src/agent/web_search.py:139-173 | the aggregated list is the de-duplicated stream of all hits, provider by provider and query by query |
| Search.FetchPages | src/agent/web_search.py:181-196 | the fetch loop yields the pages of the given items, or the exception of the first fetch that raises |
| Search.SearchAndFetch | src/agent/web_search.py:137-199 | the results are the de-duplicated hits, and the pages (or a fetch's exception) come from the top `fetch_max_pages` of the ranking |
| Chat.HasCyrillic | src/agent/agent.py:28-32 | true exactly when some letter lies in 'а'..'я' or 'А'..'Я' |
| Chat.YoIsNotCyrillic | src/agent/agent.py:30 | 'ё' and 'Ё' are outside both ranges and never make a text Cyrillic |
| Chat.SourcesLabelFor | src/agent/agent.py:35-36 | the Russian label exactly for Cyrillic text, `Sources` otherwise |
| Chat.ListOf | src/agent/agent.py:66-75 | a falsy value gives `[]`, a string gives a one-item list, a list is itself; anything else that is not iterable raises |
| Chat.KeepQueries | src/agent/agent.py:69 | the comprehension never adds queries |
| Chat.KeptQueriesClean | src/agent/agent.py:69 | every kept query is non-empty and already stripped |
| Chat.KeepSteps | src/agent/agent.py:75 | the step filter never adds steps |
| Chat.KeptStepsNonBlank | src/agent/agent.py:75 | every kept step has non-blank content |
| Chat.KeepQueriesAppend | src/agent/agent.py:69 | filtering distributes over concatenation, so the order is kept |
| Chat.KeepCleanQueries | src/agent/agent.py:69 | clean queries pass through unchanged |
| Chat.KeepCleanSteps | src/agent/agent.py:75 | non-blank steps pass through unchanged |
| Chat.SanitizePlan | src/agent/agent.py:65-94 | raises exactly when the reply is not a dict or its queries/steps are not iterable; `need_search` is the reply's truthiness |
| Chat.SanitizedWellFormed | src/agent/agent.py:65-94 | every plan has at most three clean queries and at most three non-blank steps |
| Chat.FilterBeforeTruncate | src/agent/agent.py:69-94 | blank queries ahead of good ones cost nothing: filtering precedes the cut to three |
| Chat.NoText | src/agent/agent.py:69 | a list without any text query yields no queries |
| Chat.PlanFields | src/agent/agent.py:94 | the returned dict's fields read back the plan |
| Chat.PlanFixedPoint | src/agent/agent.py:65-94 | sanitising a sanitised plan gives it back |
| Chat.FallbackSnippet | src/agent/agent.py:135-136 | a fallback snippet is at most 160 characters |
| Chat.FallbackLines | src/agent/agent.py:133-137 | one line per page, numbered from 1 |
| Chat.FallbackShape | src/agent/agent.py:131-138 | the fallback has one line per page up to five, starts with `1. ` and is never blank |
| Chat.FallbackStartsWithOne | src/agent/agent.py:133-138 | the fallback starts with the first numbered line |
| Chat.LineStartsWithNumber | src/agent/agent.py:137 | each line starts with its number and `. ` |
| Chat.AnswerSpec | src/agent/agent.py:121-139 | an error can only come from one of the two model calls |
| Chat.AnswerNeverBlank | src/agent/agent.py:131-139 | with at least one page, the answer is never blank |
| Chat.LongAnswerKept | src/agent/agent.py:124-128 | a long enough first answer is returned, and the second call is never made |
| Chat.PageUrls | src/agent/agent.py:217-234 | only non-empty URLs are listed, at most one per page |
| Chat.WithSourcesLabel | src/agent/agent.py:217-234 | the answer is kept as a prefix and always contains the sources label; an answer that already has it is unchanged |
| Chat.AnswerFromContext | src/agent/agent.py:225-236 | no cached pages gives the fixed notice; an answer failure gives the bracketed error; otherwise the answer is a prefix of the reply, which contains the sources label |
| Chat.MakePlan | src/agent/agent.py:49-94 | a planner error propagates; every plan made is well formed |
| Chat.DirectReply | src/agent/agent.py:178-194 | a truthy plan answer is returned; otherwise one chat call, with the memory as context when there is one, and its error as `[LLM error: ...]` |
| Chat.SearchPages | src/agent/agent.py:196-203 | at most `fetch_max_pages` pages, each cut to the document cap, each from a non-empty URL found by the search; an exception only from the fetch of a URL found by the search |
| Chat.RecallAnswers | src/agent/agent.py:150-156 | in the routing `Respond`, a recall question with a non-empty recap gets the recap and leaves the cache |
| Chat.PastRecall | src/agent/agent.py:150-157 | without both a trigger and a recap, `Respond` continues with `Proceed` past the recall check |
| Chat.SearchReply | src/agent/agent.py:199-223 | an exception from `search_and_fetch` gives `[Search/fetch error: ...]` and keeps the cache; otherwise the cache is either kept or replaced by the non-empty pages of this search, and a replaced cache comes with a text reply |
| Chat.RecallSkipsPlanning | src/agent/agent.py:143-156 | a recall question with a non-empty memory is answered by the recap whatever the oracles do |
| Chat.ContextSkipsPlanning | src/agent/agent.py:159-170 | a request about the cached pages is answered from them without planning or searching |
| Chat.CacheOnlyFromSearch | src/agent/agent.py:141-223 | the cache changes only to the non-empty pages of a search made for this question |
| Chat.ProceedCacheOnlyFromSearch | src/agent/agent.py:159-223 | the same, past the recall check |
| Chat.NoSearchWhenNotNeeded | src/agent/agent.py:178-194 | without a need to search or permission (and without `force_web`), nothing is searched and the cache is kept |
| Chat.SearchedAnswerHasLabel | src/agent/agent.py:208-221 | every answer built from fetched pages contains its sources label |
| Chat.ChatAgent.constructor | src/agent/agent.py:40-47 | a new agent has no cached pages |
| Chat.ChatAgent.Bullets | src/agent/agent.py:52-56 | the memory's bullets, or "" without a memory |
| Chat.ChatAgent.Plan | src/agent/agent.py:49-94 | planning is `chat_json` on the prompt with the recent conversation, then sanitising |
| Chat.ChatAgent.AnswerWithSources | src/agent/agent.py:96-139 | the answer follows the retry-then-fallback rule |
| Chat.ChatAgent.Fallback | src/agent/agent.py:131-138 | the loop builds the fallback summary |
| Chat.ChatAgent.AnswerFromLastContext | src/agent/agent.py:225-236 | no cached pages gives the fixed notice; otherwise the labelled answer over the cache |
| Chat.ChatAgent.HandleQuery | src/agent/agent.py:141-223 | the reply and the new cache are those of the routing specification over the old cache and memory |
| Chat.ChatAgent.ProceedQuery | src/agent/agent.py:159-223 | the same, past the recall check |
| Chat.ChatAgent.AnswerDirectly | src/agent/agent.py:178-194 | the plan's own answer when truthy, otherwise one chat call with the memory as context |
| Chat.ChatAgent.SearchAndAnswer | src/agent/agent.py:196-223 | the search branch as `SearchReply` states it: a search/fetch exception or no pages leaves the cache; otherwise the pages are cached and answered from |
| Actions.RawSteps | src/agent/action_agent.py:68-72 | `(steps or [])`, a dict wrapped in a list, cut to three; it raises exactly for a truthy scalar |
| Actions.KeepSteps | src/agent/action_agent.py:72-78 | kept entries are dicts of type `cmd` or `write`, in order; none is kept exactly when none is admissible; `Actions.KeepStepsAppend` and `Actions.KeepStepsOne` make it the admissible entries, in order |
| Actions.KeepStepsAppend | src/agent/action_agent.py:72-78 | filtering distributes over concatenation, so the order is kept |
| Actions.KeepStepsOne | src/agent/action_agent.py:72-78 | a single entry is kept, as its dict, exactly when it is a dict of type `cmd` or `write` |
| Actions.Normalize | src/agent/action_agent.py:67-85 | at most three steps, all `cmd` or `write`; it raises exactly when the reply is not a dict or `steps` is not iterable; `done` is the reply's truthiness |
| Actions.Recent | src/agent/action_agent.py:45 | `transcript[-6:]`: the newest six entries, or all of them when there are fewer, in order |
| Actions.PlanSpec | src/agent/action_agent.py:34-85 | at most three steps; both model calls failing gives the `parse_error` plan; an error only after one of the calls succeeded |
| Actions.TruncateBeforeFilter | src/agent/action_agent.py:72-78 | a valid fourth step is lost even when the first three are dropped |
| Actions.Sigs | src/agent/action_agent.py:140 | one signature piece per step |
| Actions.CmdStepSig | src/agent/action_agent.py:140 | the piece `StepSig` of a command step is `cmd::::<command>` |
| Actions.SigOfOne | src/agent/action_agent.py:140 | the `Signature` of a one-step plan is that step's piece |
| Actions.SignatureConcat | src/agent/action_agent.py:140 | the signature of two non-empty plans joined is their signatures joined by a bar character |
| Actions.SignatureOrderSensitive | src/agent/action_agent.py:140 | swapping two different commands of equal length changes the signature |
| Actions.SignatureCollision | src/agent/action_agent.py:140 | two different plans can share a signature |
| Actions.NormalizeRel | src/agent/action_agent.py:170-175 | a normalised path has no backslash and is never longer |
| Actions.NormalizeRelFixed | src/agent/action_agent.py:170-175 | a path already in normal form is left alone |
| Actions.NormalizeRelDropsPrefix | src/agent/action_agent.py:172-174 | a leading `workspace/`, in any letter case, is removed |
| Actions.NormalizeRelNotIdempotent | src/agent/action_agent.py:173-174 | only one `workspace/` prefix is removed, so normalising twice differs from once |
| Actions.RewritePlain | src/agent/action_agent.py:184-190 | `RewriteSegment` leaves a segment with no venv tool to substitute and no workspace prefix unchanged |
| Actions.StripWorkspaceAbsent | src/agent/action_agent.py:190 | the `workspace/` and `workspace\` removals change nothing in a text without them |
| Actions.RewriteVenvPython | src/agent/action_agent.py:185-186 | with a venv python, a segment starting `python ` (any case) has its first word replaced by the quoted venv python path |
| Actions.RewriteVenvPip | src/agent/action_agent.py:187-188 | with a venv pip, a segment starting `pip ` (any case) has its first word replaced by the quoted venv pip path |
| Actions.StrippedVenvPath | src/agent/action_agent.py:185-190 | the substituted venv path of a workspace named `workspace` loses that directory to the removal |
| Actions.RewriteVenvPythonStripped | src/agent/action_agent.py:184-190 | with such a workspace a `python ` segment becomes the venv python without the `workspace` directory; anything else is kept |
| Actions.RewriteSegmentNoSemicolon | src/agent/action_agent.py:183-190 | rewriting never introduces a `;` |
| Actions.Segments | src/agent/action_agent.py:181 | one trimmed segment per `;`-separated piece |
| Actions.TrimmedLowerNeedsNoLStrip | src/agent/action_agent.py:181-184 | `.lstrip()` after `.lower()` of a trimmed segment changes nothing |
| Actions.RewriteAll | src/agent/action_agent.py:183-191 | every segment is rewritten, one for one |
| Actions.RewriteCmdPlain | src/agent/action_agent.py:177-192 | `RewriteCmd` leaves a one-segment command with nothing to rewrite only trimmed |
| Actions.RewriteCmdKeepsSegments | src/agent/action_agent.py:181-192 | splitting the rewritten command on `;` gives the rewritten segments back, one for one, joined by `; ` |
| Actions.RunCmd | src/agent/action_agent.py:89-104 | a non-string command raises; a blank one is refused without running; otherwise the command, rewritten for the venv as it exists at this step, is run, and the result is `ok` exactly when it exits with 0; its exception propagates |
| Actions.VenvCheckedPerStep | src/agent/action_agent.py:177-192 | the venv is looked for at each command: a `pip` command runs as written before the venv exists and through the venv's pip after it was created |
| Actions.RunWrite | src/agent/action_agent.py:105-115 | a non-string path raises; a blank path is refused; a write that does not raise succeeds exactly when the path is non-blank |
| Actions.WriteGeneratesContent | src/agent/action_agent.py:107-115 | without content, the file text is the generated one, or "" when generation fails; without a goal the missing attribute raises; a writer exception propagates, and a write reports the path and the UTF-8 length |
| Actions.WriteToWorkspaceDir | src/agent/action_agent.py:105-115 | a write to `workspace/` is handed to the writer with the empty path, and its exception propagates |
| Actions.RunStep | src/agent/action_agent.py:87-116 | dispatches on the step type; an unknown type gives the error result, and only `cmd`/`write` can succeed |
| Actions.WroteResultFields | src/agent/action_agent.py:115 | a write always reports success and its byte count |
| Actions.WriteReportsBytes | src/agent/action_agent.py:105-115 | a write with content reports that content's UTF-8 length |
| Actions.RunBatch | src/agent/action_agent.py:149-167 | the entries are the steps run, in order; without the smoke greeting every step ran; with it the batch ended on the successful command that showed it (and such a command ends it, `Actions.RunBatchStopsAtGreeting`) |
| Actions.Extend | src/agent/action_agent.py:154-166 | one transcript entry per step; a failed step adds its `Failed` line; a successful command showing the greeting adds the smoke line and sets the flag; any other success adds no line |
| Actions.RunBatchNext | src/agent/action_agent.py:149-167 | a batch that has not ended runs its next step |
| Actions.RunBatchSettled | src/agent/action_agent.py:153-167 | once a step raised or showed the greeting, the later steps never run |
| Actions.RunBatchRaises | src/agent/action_agent.py:149-153 | a step that raises makes the whole batch raise |
| Actions.RunBatchGoesOnAfterFailure | src/agent/action_agent.py:154-157 | a failed step is logged with its `Failed` line and the batch goes on |
| Actions.RunBatchStopsAtGreeting | src/agent/action_agent.py:162-167 | a successful command showing the greeting ends the batch with the smoke line, after exactly that step |
| Actions.SmokeSummaryNonEmpty | src/agent/action_agent.py:162-168 | once the batch has settled on the greeting, the joined summary is non-empty |
| Actions.Round | src/agent/action_agent.py:125-167 | a stopping round leaves the transcript; a continuing round appends 1–3 entries and resets stagnation |
| Actions.Follow | src/agent/action_agent.py:132-167 | `done`, then an empty plan, then a repeat stop the round in that order, each with one summary line; a continuing round records the new signature |
| Actions.RepeatStopsExactly | src/agent/action_agent.py:140-148 | with the counter at zero, a round stops as a repeat exactly when its signature equals the previous one |
| Actions.Finish | src/agent/action_agent.py:168 | the result is never empty: the joined summary or the fixed default text |
| Actions.RunTaskSpec | src/agent/action_agent.py:118-168 | a task that does not raise returns non-empty text |
| Actions.RunFromNonEmpty | src/agent/action_agent.py:125-168 | from any round and state, the loop's result is non-empty text |
| Actions.RunFrom | src/agent/action_agent.py:125-168 | past the budget the task reports its summary |
| Actions.RunFromNext | src/agent/action_agent.py:125-167 | a continuing round hands its state to the next |
| Actions.RunFromHalt | src/agent/action_agent.py:131-168 | a stopping round ends the task with its summary |
| Actions.RoundOfPlan | src/agent/action_agent.py:127-128 | a round (`Rounds`) follows the plan it obtained |
| Actions.NoBudgetNoRounds | src/agent/action_agent.py:125-168 | without any round, the task reports the default text |
| Actions.DoneAtOnce | src/agent/action_agent.py:132-134 | a first plan marked `done` ends the task with the goal line, running nothing |
| Actions.FirstHaltEnds | src/agent/action_agent.py:125-168 | a first round that stops with one line makes that line the result |
| Actions.RoundDone | src/agent/action_agent.py:132-134 | a `done` plan stops the round with the goal line |
| Actions.RepeatedPlanHalts | src/agent/action_agent.py:140-148 | a plan with the previous round's signature stops the round with the repetition line, running nothing |
| Actions.RepeatedPlanEndsTask | src/agent/action_agent.py:125-168 | a plan that repeats the first round's ends the task in the second round |
| Actions.ActionAgent.constructor | src/agent/action_agent.py:21-29 | a new agent keeps its workspace, budget and timeout, with no goal yet |
| Actions.ActionAgent.Plan | src/agent/action_agent.py:34-85 | the model calls and the normalisation loop compute the plan specification |
| Actions.ActionAgent.RewriteCmdForVenv | src/agent/action_agent.py:177-192 | the segment loop computes `RewriteCmd` with the venv's existence at this step, which substitutes the venv python and pip and strips the workspace prefix (see the rows above) |
| Actions.ActionAgent.ExecuteSteps | src/agent/action_agent.py:149-167 | the step loop computes `RunBatch`: a raising step raises, a failed one is logged and the loop goes on, the greeting ends it |
| Actions.ActionAgent.RunTask | src/agent/action_agent.py:118-168 | records the goal, and the result is the loop specification over rounds 1 to `max_steps` |
| Snake.GridSize | workspace/snake_game/snake.py:9-11 | 24 rows and 32 columns, both exact divisions |
| Snake.Turn | workspace/snake_game/snake.py:52-60 | a non-arrow key keeps the direction; an arrow turns the snake exactly when it does not point straight back |
| Snake.NoReverse | workspace/snake_game/snake.py:52-60 | one key never turns the snake straight back and keeps a unit direction |
| Snake.OnEvents | workspace/snake_game/snake.py:49-60 | events change only the direction and `running`; `running` only goes false; the direction stays a unit |
| Snake.NoReverseKeeps | workspace/snake_game/snake.py:52-60 | a key press keeps a unit direction |
| Snake.QuitStops | workspace/snake_game/snake.py:50-51 | a QUIT anywhere in a frame ends the loop after it |
| Snake.ChainedKeysReverse | workspace/snake_game/snake.py:49-60 | two keys in one frame can reverse the snake |
| Snake.Move | workspace/snake_game/snake.py:63 | the new head wraps onto the grid |
| Snake.MoveBack | workspace/snake_game/snake.py:63 | moving back undoes a move, so wrapping is a bijection |
| Snake.WrapBack | workspace/snake_game/snake.py:63 | one step with wrap-around and one step back return to the start |
| Snake.FirstFree | workspace/snake_game/snake.py:30-34 | food is a drawn cell off the snake; there is none exactly when every draw hits the snake |
| Snake.FullGridStalls | workspace/snake_game/snake.py:30-34 | a snake covering the grid leaves no cell to draw |
| Snake.CollisionEnds | workspace/snake_game/snake.py:64-67 | running into the snake ends the game and changes nothing else |
| Snake.EatingGrows | workspace/snake_game/snake.py:68-71 | eating prepends the head and raises length and score by one |
| Snake.MovingShifts | workspace/snake_game/snake.py:68-73 | otherwise the head is prepended and the tail dropped |
| Snake.TickKeepsValid | workspace/snake_game/snake.py:62-73 | a move `TickSpec` keeps the snake on the grid, without overlap, with length equal to score plus one and food off the snake |
| Snake.FrameKeepsValid | workspace/snake_game/snake.py:49-73 | a frame `FrameSpec` keeps the state valid and never lowers the score |
| Snake.PlayKeepsValid | workspace/snake_game/snake.py:47-73 | any number of frames (`PlaySpec`) keep the state valid and never lower the score |
| Snake.Initial | workspace/snake_game/snake.py:42-45 | the starting state is valid |
| Snake.RandomFoodPosition | workspace/snake_game/snake.py:30-34 | the retry loop returns the first draw off the snake |
| Snake.Game.constructor | workspace/snake_game/snake.py:42-45 | a new game is in the starting state |
| Snake.Game.HandleEvents | workspace/snake_game/snake.py:49-60 | the event loop applies the events in order |
| Snake.Game.Tick | workspace/snake_game/snake.py:62-73 | the move block updates the fields as the move specification says |
| Snake.Game.Play | workspace/snake_game/snake.py:47-73 | the main loop plays the frames and the state stays valid |

## Left out

- Config.Merge: modelled on values. The source merges into `dst` in place, so aliasing of nested dicts is not captured.
- The process executor (`run_powershell`, `write_text_file` in `tools.py`) is not part of this model. `Actions.Oracles` gives, for each step number, the outcome of running a command (exit code and output, including the timeout kill with code -9) and of writing a file, each either a value or the exception the call raises (for example PowerShell missing or a path that is a directory); the content generator is an oracle of the same kind. Exceptions propagate out of `run_task` as `Err`.
- The HTTP requests, sleeps and backoff of the clients are not modelled. Each attempt's outcome is an input, and the delays have no observable effect on the result.
- Azure's chat loop is not modelled: its retry without `temperature` depends on Azure's error text. Its `chat_json` is the same as Ollama's (`Llm.ChatJson`).
- `json.loads` is not modelled. It is a parameter `parse`, so the extraction logic is proved for any parser.
- The search providers (DuckDuckGo, Google CSE), BeautifulSoup's HTML text extraction and `_domain` (used only for logging) are not modelled. Providers and fetch outcomes are inputs; a fetch outcome can be the parser's exception, and the providers' own exceptions are caught where they occur.
- Floating-point values (temperatures, durations) appear only as their Python `repr` text.
- Logging and verbose printing are left out. The model is the behaviour with `verbose` off; apart from the case below, the verbose prints only format texts and numbers the code already holds.
- Chat.SanitizePlan: models `verbose` off. With it on, `src/agent/agent.py:76-77` formats `len(answer)`, which raises a TypeError for a truthy answer without a length (a number or `true`); that exception is not modelled.
- The pygame rendering, clock and random generator are left out. The random draws are a finite input sequence per frame, and the `stalled` flag marks a frame where `random_food_position` would still be looping.
- Snake.Game.Tick: as in the source, the move also runs in the frame that saw QUIT.
- `str.lower` and `str.isspace` cover ASCII, Cyrillic and the common whitespace characters only. `repr` escaping covers quotes, backslashes and control characters, not the rest of Python's printable-character rules.
- The prompt texts and `json.dumps` of transcript entries are not reproduced character for character. They are opaque to the model's results.
- The configuration-derived constructor arguments (working directory, step budget, timeout) are parameters.
- Actions.RewriteCmd: drops the `.lstrip()` after `.lower()`, which `Actions.TrimmedLowerNeedsNoLStrip` proves has no effect. The venv executable paths are rendered from the workspace text, not resolved by the file system.
- Chat.ChatAgent.HandleQuery: reads the memory's bullets once for each of the recall and context renderings, not at each use.
- Config.DefaultConfig: only the provider and the page cap are proved as lookups (`Config.DefaultProvider`, `Config.DefaultFetchMaxPages`). The other defaults are given as data, read through `Config.LoadConfig`.
- `app.py`, the CLI loop and `make_chat_client` are not part of this model.
