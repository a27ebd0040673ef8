# A verified model of the RAG proxy's request pipeline

`ollama_proxy.py` is a small retrieval-augmented proxy in front of a local
generation backend. A `POST /api/generate` request carries a prompt (and
optionally a model). The proxy strips the prompt and rejects it with status 400
when nothing is left. It answers a prompt it has seen before from a process-wide
cache. Otherwise it searches the web for the prompt, extracts up to six results
from the results page, prefers results on a short list of game-wiki domains,
composes them into a context, wraps context and question in a fixed prompt
template, sends that to the backend, concatenates the `response` fragments of
the backend's line-delimited JSON reply, and caches and returns
`(context, response)`. Four counters record requests, lookups, preferred-domain
matches and cache hits.

The model follows the source's structure, one module per concern:

- `Text` — the parts of Python's string library the proxy uses: `strip()` with
  Python's full whitespace set, ASCII `lower()`, `endswith` and `"\n".join`;
  `StartsWith` is only used to state the placeholder answers' prefix.
- `Extraction` — `extract_results`: the page is given as the sequence of result
  blocks the CSS selector finds, each with an optional title anchor (its stripped
  text and optional `href`) and an optional description text. The loop is a
  method proved against the function `Extracted`.
- `Domains` — `domain_matches` (a loop with early return, here a recursive
  function with an `exists` characterisation) and the preferred-domain filter.
- `Composition` — `summarize_results` (a loop, proved against `Summary`), the
  three-way choice of context, and the prompt template.
- `Generation` — the backend reply loop: each line comes with what JSON decoding
  made of it (`Malformed`, a `Chunk` with or without a string `response`, or a
  value on which reading `response` raises). The loop is a method proved against
  the function `Collect`; `Respond` adds the stripping and the
  `"[LLM Failure] "` placeholders.
- `Proxy` — `generate`. The global `cache` and `stats` are the fields of the
  class `RagProxy`. `Generate` changes them in place, and its contract ties the
  new fields and the reply to the function `Serve` on a state value
  (`ProxyState`), about which the bookkeeping lemmas are proved. The steps of
  `generate` are the methods `HandleRequest`, `MissPath`, `AnswerMiss`,
  `SearchResults` and `ComposeContext`, each proved to compute what `Serve`
  says. The search request, URL parsing and the backend request are supplied
  by the caller as the functions in `Services`.

`ollama_proxy.py` has no early stop on a `done: true` chunk and no cache flush,
so the model has neither.

## Model

| member | source | states |
|---|---|---|
| Text.IsSpace | ollama_proxy.py:64 | the characters Python's `str.isspace()` accepts, which `strip()` removes: codes 9-13, 28-32, 0x85, 0xA0, 0x1680, 0x2000-0x200A, 0x2028, 0x2029, 0x202F, 0x205F and 0x3000 |
| Text.Strip | ollama_proxy.py:64-65 | `str.strip()`: the left strip, then the right strip |
| Text.TrimStart | ollama_proxy.py:64 | `lstrip()`: drops whitespace from the front, one character at a time |
| Text.TrimEnd | ollama_proxy.py:64 | `rstrip()`: drops whitespace from the back, one character at a time |
| Text.Blank | ollama_proxy.py:115-116 | `not line.strip()`, read character by character: every character is whitespace |
| Text.StripSpec | ollama_proxy.py:64-65 | `strip()` returns the slice of its input that follows the leading whitespace, only whitespace is cut on either side, and the result neither starts nor ends with whitespace |
| Text.TrimStartSpec | ollama_proxy.py:64 | the left strip is the longest suffix not starting with whitespace: everything cut is whitespace |
| Text.TrimEndSpec | ollama_proxy.py:64 | the right strip is the longest prefix not ending with whitespace: everything cut is whitespace |
| Text.TrimmedIsStripped | ollama_proxy.py:64 | a string with no surrounding whitespace strips to itself |
| Text.StripIdempotent | ollama_proxy.py:64 | stripping a stripped prompt changes nothing |
| Text.StripEmptyIff | ollama_proxy.py:67 | `not prompt` after stripping holds exactly when the raw prompt is all whitespace (or empty) |
| Text.BlankAllSpace | ollama_proxy.py:115-116 | a line is blank, character by character, exactly when every character is whitespace |
| Text.BlankIff | ollama_proxy.py:115-116 | the per-character blank test agrees with `not line.strip()` |
| Text.Lower | ollama_proxy.py:51 | `str.lower()` on ASCII letters: each character mapped by the ASCII rule, the length kept |
| Text.LowerChar | ollama_proxy.py:51 | one character lower-cased: `A`-`Z` to `a`-`z`, every other character unchanged |
| Text.LowerIdempotent | ollama_proxy.py:51-53 | lower-casing a lower-cased string changes nothing |
| Text.EndsWith | ollama_proxy.py:54 | `s.endswith(suffix)`: `s` is at least as long as `suffix` and ends with it |
| Text.Join | ollama_proxy.py:47 | `sep.join(parts)`: the parts with the separator between consecutive ones |
| Text.JoinAppend | ollama_proxy.py:47 | the join of two non-empty runs of parts is the two joins with one separator between them |
| Text.JoinOccurrences | ollama_proxy.py:47 | joining `n` parts with a one-character separator adds exactly `n - 1` occurrences of it |
| Extraction.Title | ollama_proxy.py:34 | the anchor's stripped text, `""` when the block has no title anchor |
| Extraction.Href | ollama_proxy.py:35 | the anchor's `href`, absent when the anchor has none, `""` when the block has no title anchor |
| Extraction.SnippetText | ollama_proxy.py:36 | the description's stripped text, `""` when the block has none |
| Extraction.ResultOf | ollama_proxy.py:38 | a usable block's pair: its link, and its title, `" - "` and its snippet |
| Extraction.Extracted | ollama_proxy.py:27-41 | `extract_results` as a value: the results of the usable blocks among the first six, in order |
| Extraction.Examined | ollama_proxy.py:30 | `[:6]`: the first six blocks, or all of them when there are fewer |
| Extraction.Keep | ollama_proxy.py:31-38 | one `(href, title + " - " + snippet)` per block with a non-empty title and link, in block order |
| Extraction.Usable | ollama_proxy.py:34-37 | `if title and url`: the title is non-empty and the link is present and non-empty |
| Extraction.ExtractResults | ollama_proxy.py:27-41 | the loop returns the results of the usable blocks among the first six, in block order |
| Extraction.KeepLength | ollama_proxy.py:37-38 | at most one result per block |
| Extraction.KeepAppend | ollama_proxy.py:30-38 | results come out in block order: keeping distributes over concatenation of blocks |
| Extraction.KeepMembers | ollama_proxy.py:34-38 | a result is kept exactly when some usable block yields it as `(href, title + " - " + snippet)` |
| Extraction.ExtractedBound | ollama_proxy.py:30 | at most six results, and no more than there are blocks |
| Extraction.ExtractedMembers | ollama_proxy.py:30-38 | a result is extracted exactly when a usable block among the first six yields it; every extracted link is non-empty |
| Extraction.ExtractedIgnoresLaterBlocks | ollama_proxy.py:30 | blocks after the sixth never change the results |
| Extraction.UnusableBlockSkipped | ollama_proxy.py:37 | a block without title or link is skipped and leaves the blocks around it unaffected |
| Domains.HostMatches | ollama_proxy.py:54 | the rule for one lower-cased host and domain: equal, or the host ends with `"."` followed by the domain |
| Domains.DomainMatches | ollama_proxy.py:49-58 | `domain_matches`: false when URL parsing raised, otherwise the domain loop on the lower-cased netloc |
| Domains.AnyDomain | ollama_proxy.py:52-56 | the loop over the domains, each lower-cased, returning true at the first one the host equals or ends with after a dot |
| Domains.PreferredDomains | ollama_proxy.py:10 | the three preferred domains, in order |
| Domains.AnyDomainIff | ollama_proxy.py:52-56 | the early-return loop finds a hit exactly when some lower-cased domain equals the host or is a dot-suffix of it |
| Domains.DomainMatchesIff | ollama_proxy.py:49-58 | `domain_matches` on a parsed host holds exactly when, both lower-cased, the host equals some domain or ends with `"." + domain` |
| Domains.MatchAtLabelBoundary | ollama_proxy.py:54 | a non-exact match ends with the domain preceded by a dot |
| Domains.LowerIdentity | ollama_proxy.py:51-53 | lower-casing leaves a string without ASCII capitals unchanged |
| Domains.PreferredDomainsLower | ollama_proxy.py:10 | the three preferred domains are already lower case |
| Domains.LowerLiteral | ollama_proxy.py:10 | the preferred domains and the example hosts are lower case |
| Domains.SubdomainMatches | ollama_proxy.py:54 | `www.wowhead.com` matches |
| Domains.CaseInsensitiveMatch | ollama_proxy.py:51-53 | two hosts that agree character by character once lower-cased match exactly the same domains |
| Domains.MixedCaseHostMatches | ollama_proxy.py:51 | `WoWhead.com` matches |
| Domains.ExtendedHostDoesNotMatch | ollama_proxy.py:54 | `wowhead.com.evil.net` does not match |
| Domains.ContainingHostDoesNotMatch | ollama_proxy.py:54 | `evilwowhead.com` does not match |
| Domains.Preferred | ollama_proxy.py:95 | the order-preserving filter of the results by `domain_matches` of their url |
| Domains.PreferredMembers | ollama_proxy.py:95 | the preferred results are exactly the results on a preferred site |
| Domains.PreferredAppend | ollama_proxy.py:95 | the filter keeps the original order (distributes over concatenation) |
| Domains.PreferredLength | ollama_proxy.py:95 | the filter is no longer than its input |
| Domains.PreferredSingle | ollama_proxy.py:95 | with exactly one preferred result, the filter is that result alone |
| Domains.PreferredNone | ollama_proxy.py:95 | with no preferred result, the filter is empty |
| Composition.Render | ollama_proxy.py:46 | one result as `title_snippet + " (Source: " + link + ")"` |
| Composition.Summary | ollama_proxy.py:43-47 | `summarize_results` as a value: the rendered lines joined by newlines |
| Composition.Renders | ollama_proxy.py:45-46 | one line per result, in order, each `title_snippet + " (Source: " + link + ")"` |
| Composition.SummarizeResults | ollama_proxy.py:43-47 | the loop returns the rendered lines joined by newlines |
| Composition.SummaryEmpty | ollama_proxy.py:47 | no results give the empty context |
| Composition.SummarySingle | ollama_proxy.py:47 | one result gives its line with no separator |
| Composition.SummaryAppend | ollama_proxy.py:47 | summaries of consecutive runs are joined by exactly one newline |
| Composition.SummaryNewlines | ollama_proxy.py:47 | the summary of `n` results holds the newlines of the lines plus exactly `n - 1` |
| Composition.SelectContext | ollama_proxy.py:94-100 | the summary of the preferred results when any, else the summary of all results when any, else `""` |
| Composition.SelectContextSpec | ollama_proxy.py:94-100 | the context is the summary of the selection; the selection is drawn from the results, is exactly the preferred ones when any exist, and is all results otherwise |
| Composition.SinglePreferredContext | ollama_proxy.py:94-97 | one preferred result among others makes the context that result's line alone |
| Composition.AugmentedPrompt | ollama_proxy.py:102 | the fixed template around the context and the question |
| Composition.AugmentedPromptLayout | ollama_proxy.py:102 | the augmented prompt is the instruction head, the context verbatim, the question head, the question verbatim and the answer cue, at fixed offsets |
| Composition.AugmentedPromptDeterminesContext | ollama_proxy.py:102 | for one question, the augmented prompt determines the context |
| Generation.Failure | ollama_proxy.py:129-131 | the placeholder answer: `[LLM Failure] ` followed by the exception's message |
| Generation.Skipped | ollama_proxy.py:115-123 | a line the loop passes over: blank once stripped, or not decodable as JSON |
| Generation.Collect | ollama_proxy.py:112-123 | the line loop as a value: each non-blank, decodable line with a `response` appends it; the first line on which reading it raises ends the loop with its message |
| Generation.Step | ollama_proxy.py:115-123 | one iteration: skip a blank or undecodable line or one without `response`, append a fragment, or raise |
| Generation.CollectResponse | ollama_proxy.py:112-123 | the line loop returns what `Collect` gives: the accumulated text, or the message of the exception that left it |
| Generation.AbortedPersists | ollama_proxy.py:113-127 | once the loop has raised, later lines do not matter |
| Generation.FinalResponse | ollama_proxy.py:110-131 | the answer: `[LLM Failure] ` and the message when the request or the loop raised, the stripped aggregate when non-empty, else `[LLM Failure] Empty response field` |
| Generation.Respond | ollama_proxy.py:110-131 | the aggregation step returns `FinalResponse` of the backend outcome |
| Generation.ConcatAppend | ollama_proxy.py:121 | concatenation distributes over appending runs of fragments |
| Generation.FragmentsAppend | ollama_proxy.py:114-121 | the fragments of two runs of lines are the fragments of each, in order |
| Generation.StepFragments | ollama_proxy.py:115-121 | one line that does not raise appends exactly its own fragment, if any |
| Generation.CollectConcatenates | ollama_proxy.py:114-123 | when no line raises, the loop yields the in-order concatenation of the `response` fragments of the non-blank, decodable lines |
| Generation.NoRaiseCollects | ollama_proxy.py:114-123 | when no line raises, the loop runs to the end |
| Generation.CollectAbortsAtFirstRaise | ollama_proxy.py:118-127 | when some line raises, the loop stops at the first such line with its message |
| Generation.FinalResponseNonEmpty | ollama_proxy.py:124-131 | the answer is never empty: the stripped aggregate when non-empty, otherwise a string starting with `[LLM Failure] ` |
| Generation.FinalResponseOfFragments | ollama_proxy.py:112-129 | with no raising line, the answer is the stripped concatenation of the fragments, or `[LLM Failure] Empty response field` when that is empty |
| Proxy.RagProxy.Install | ollama_proxy.py:62-133 | the in-place write of the cache and the four counters: given a state satisfying the bookkeeping invariant, the fields become that state and the object stays valid |
| Proxy.Serve | ollama_proxy.py:61-134 | `generate` on a state value: count the request; reject an empty stripped prompt with 400; answer a cached one, counting the hit; otherwise the miss path |
| Proxy.Lookup | ollama_proxy.py:75-133 | the miss path as a value: count the lookup, count a preferred match when the search found one, store the new entry under the prompt and answer with it |
| Proxy.MissEntry | ollama_proxy.py:79-131 | the context composed from the search for the prompt and the answer the backend's reply to the augmented prompt comes to |
| Proxy.FoundPreferred | ollama_proxy.py:95-98 | the preferred filter of the search results is non-empty |
| Proxy.PromptKey | ollama_proxy.py:64 | the request's prompt, stripped, `""` when absent |
| Proxy.ModelName | ollama_proxy.py:65 | the request's model, stripped, `""` when absent |
| Proxy.RawResults | ollama_proxy.py:79-92 | the extracted results of the page, or none when the search raised |
| Proxy.PayloadFor | ollama_proxy.py:104-106 | the payload: the augmented prompt, and the model only when it is non-empty |
| Proxy.RagProxy.constructor | ollama_proxy.py:14-20 | the process starts with an empty cache and all four counters at zero |
| Proxy.RagProxy.Generate | ollama_proxy.py:61-134 | a request moves the fields to the state `Serve` gives and returns its reply, keeping the bookkeeping invariant; every answer it returns is non-empty |
| Proxy.HandleRequest | ollama_proxy.py:62-75 | the steps of `generate` compute exactly `Serve`: count, reject, hit, or the miss path |
| Proxy.MissPath | ollama_proxy.py:75-133 | the miss path counts the lookup and a preferred match, writes the entry under the prompt and returns it |
| Proxy.AnswerMiss | ollama_proxy.py:79-131 | the miss computation yields the entry `MissEntry` describes, whether a preferred result was found, and a non-empty answer |
| Proxy.SearchResults | ollama_proxy.py:79-92 | a failed search gives no results; a page gives its extracted results, at most six |
| Proxy.ComposeContext | ollama_proxy.py:94-100 | the context is the source's three-way choice; a preferred match is reported exactly when the filter is non-empty, i.e. when some result is on a preferred site |
| Proxy.StoreKeepsWellFormed | ollama_proxy.py:133 | storing a non-empty answer under a new, non-empty prompt keeps the cache well formed and adds one entry |
| Proxy.MissEntryAnswered | ollama_proxy.py:110-131 | a miss never stores an empty answer |
| Proxy.ServePreservesInvariant | ollama_proxy.py:61-134 | every request keeps hits plus lookups within the requests, preferred matches within the lookups, the cache within the lookups, and all keys and answers non-empty |
| Proxy.InitialInvariant | ollama_proxy.py:14-20 | the start state satisfies the invariant and has only stripped keys |
| Proxy.ServeKeepsKeysStripped | ollama_proxy.py:64-70 | every cache key stays a stripped prompt, so a request carrying a key as its prompt finds that key |
| Proxy.StoreKeepsKeysStripped | ollama_proxy.py:133 | storing under a stripped key keeps every key stripped |
| Proxy.ServeCounts | ollama_proxy.py:62-98 | every request counts once; it is a hit, a lookup or neither; a preferred match comes only with a lookup; hits and lookups are counted exactly for cached and uncached non-empty prompts |
| Proxy.ServeRejects | ollama_proxy.py:67-68 | an empty key is rejected with 400 and only the request counter moves |
| Proxy.ServeMissLooksUp | ollama_proxy.py:75 | a non-empty uncached key takes the miss path |
| Proxy.ServeRejectsBlankPrompt | ollama_proxy.py:64-68 | an absent or all-whitespace prompt is rejected with status 400 and `Prompt missing`; cache and other counters unchanged |
| Proxy.ServeAnswersOtherwise | ollama_proxy.py:64-68 | any prompt with a non-whitespace character is answered |
| Proxy.ServeHit | ollama_proxy.py:70-73 | a hit returns the stored entry, counts the hit, and leaves the cache and the other counters unchanged |
| Proxy.ServeMiss | ollama_proxy.py:75-133 | a miss writes the cache once, at the stripped prompt, with the returned pair; counts one lookup; counts a preferred match exactly when the preferred filter is non-empty, whose summary is then the context, and otherwise the context is the summary of all results |
| Proxy.CacheOnlyGrows | ollama_proxy.py:133 | cached entries are never replaced or removed; at most the request's own key is added |
| Proxy.StoreOnlyAdds | ollama_proxy.py:133 | storing under a new key keeps every other entry and adds only that key |
| Proxy.ServeAnswersNonEmpty | ollama_proxy.py:110-134 | every answer, cached or fresh, is non-empty |
| Proxy.RepeatedPromptReplays | ollama_proxy.py:64-73 | asking again with the same prompt up to surrounding whitespace replays the first answer as a hit and changes nothing else |

## Left out

- Flask routing, `jsonify`, the `/stats` and `/ping` endpoints and the threaded server (lines 60, 136-145): server plumbing, and the threading is concurrency, which the model does not have.
- The two `httpx.post` calls, their headers and timeouts: their outcomes come from the `search` and `backend` functions of `Services`.
- Writing `last_search.html` and all logging: file I/O and logging. A failure of the file write ends the search like any other exception, so it is part of `SearchFailed`.
- BeautifulSoup: the page is given as the blocks the selector finds, with texts already stripped as `get_text(strip=True)` does. Block fields are plain values, so the per-block exception handler (lines 39-40) has nothing to catch.
- `res.text.strip().splitlines()` and `json.loads`: the backend reply is given as its lines, each paired with its decoding; a decoded value on which `"response" in chunk` or `+=` raises is `Unreadable` with the exception's message.
- `urlparse(url).netloc`: given by the `netlocOf` function; `None` stands for a parse that raised.
- Exception messages are opaque strings carried by the outcomes; only `Empty response field` is fixed.
- Request decoding: a `get_json` failure and JSON fields that are not strings (e.g. `"prompt": null`, which makes `.strip()` raise) are not modelled; a field is a string or absent.
- Text.Lower: ASCII lower-casing only, not Python's full Unicode `str.lower()`.
- Proxy.RagProxy.Generate: its contract keeps `Valid()`, the bookkeeping invariant; that every key is a stripped prompt is the separate invariant `KeysStripped`, preserved by `ServeKeepsKeysStripped` rather than by `Valid()`.
- The order in which one request updates the counters and the cache is not modelled separately: a request goes from one state to the next, and without concurrency the intermediate states cannot be observed.
