/** The pipeline orchestrator (`generate`, ollama_proxy.py lines 61-134) with the
    process-wide prompt cache and request statistics as the state of one object.
    The two HTTP calls and URL parsing are supplied by the caller as functions:
    `search` gives what the search request came to for a query, `netlocOf` gives
    `urlparse(url).netloc` (`None` when parsing raises), and `backend` gives what the
    generation request came to for a payload. */
module Proxy {
  import opened Text
  import opened Extraction
  import opened Domains
  import opened Composition
  import opened Generation

  /** The decoded JSON body of a request: its `prompt` and `model` fields, if present. */
  datatype Request = Request(prompt: Option<string>, model: Option<string>)

  /** What the search request came to: it raised (network error, error status, or a
      failure while saving or parsing the page), or it produced a results page. */
  datatype SearchOutcome = SearchFailed(error: string) | Page(blocks: seq<Block>)

  /** The reply: the 400 error for a missing prompt, or the context and the answer. */
  datatype Reply = Rejected(status: nat, error: string) | Answered(context: string, response: string)

  /** A cached `(context, response)` pair. */
  datatype CacheEntry = CacheEntry(context: string, response: string)

  const BadRequestStatus: nat := 400
  const PromptMissing: string := "Prompt missing"

  /** The results the pipeline works with: none when the search failed. */
  function RawResults(outcome: SearchOutcome): seq<SearchResult> {
    match outcome
    case SearchFailed(_) => []
    case Page(blocks) => Extracted(blocks)
  }

  /** The payload for a prompt; the model is sent only when it is non-empty. */
  function PayloadFor(fullPrompt: string, model: string): Payload {
    Payload(fullPrompt, if model != "" then Some(model) else None)
  }

  /** The collaborators `generate` calls out to: the search request (what it came to
      for a query), URL parsing (`urlparse(url).netloc`, `None` when parsing raises)
      and the generation request (what it came to for a payload). */
  datatype Services = Services(
    search: string -> SearchOutcome,
    netlocOf: string -> Option<string>,
    backend: Payload -> BackendOutcome)

  /** The cache key of a request: its prompt, stripped (`""` when absent). */
  function PromptKey(req: Request): string {
    Strip(req.prompt.GetOr(""))
  }

  /** The model of a request, stripped (`""` when absent). */
  function ModelName(req: Request): string {
    Strip(req.model.GetOr(""))
  }

  /** The process-wide state of the proxy as a value: the prompt cache and the four
      request counters of `stats`. */
  datatype ProxyState = ProxyState(
    cache: map<string, CacheEntry>,
    totalRequests: nat,
    lookupAttempts: nat,
    preferredDomainMatches: nat,
    cacheHits: nat)

  /** What the bookkeeping keeps true: each request is rejected, a hit or a miss, so
      hits and misses together never exceed the requests; only misses can count a
      preferred match or add a cache entry; and every key is a non-empty prompt whose
      cached answer is non-empty. That keys are stripped is `KeysStripped`. */
  ghost predicate Invariant(s: ProxyState) {
    && s.cacheHits + s.lookupAttempts <= s.totalRequests
    && s.preferredDomainMatches <= s.lookupAttempts
    && |s.cache| <= s.lookupAttempts
    && WellFormedCache(s.cache)
  }

  /** The state at process start. */
  const Initial: ProxyState := ProxyState(map[], 0, 0, 0, 0)

  /** The state after a request, and the reply. */
  datatype Served = Served(state: ProxyState, reply: Reply)

  /** `generate` on a state value: count the request; reject an empty prompt; answer a
      cached prompt from the cache, counting the hit; otherwise take the miss path. */
  function Serve(s: ProxyState, req: Request, services: Services): Served {
    var prompt := PromptKey(req);
    var counted := s.(totalRequests := s.totalRequests + 1);
    if prompt == "" then
      Served(counted, Rejected(BadRequestStatus, PromptMissing))
    else if prompt in s.cache then
      Served(counted.(cacheHits := s.cacheHits + 1),
             Answered(s.cache[prompt].context, s.cache[prompt].response))
    else
      Lookup(counted, prompt, ModelName(req), services)
  }

  /** The miss path: count the lookup, count a preferred match when the search found
      one, and store and return the new entry. */
  function Lookup(s: ProxyState, prompt: string, model: string, services: Services): Served {
    var entry := MissEntry(prompt, model, services);
    Served(s.(lookupAttempts := s.lookupAttempts + 1,
              preferredDomainMatches := s.preferredDomainMatches
                                        + (if FoundPreferred(prompt, services) then 1 else 0),
              cache := s.cache[prompt := entry]),
           Answered(entry.context, entry.response))
  }

  class RagProxy {
    /** The cache, keyed by the stripped prompt. */
    var cache: map<string, CacheEntry>
    var totalRequests: nat
    var lookupAttempts: nat
    var preferredDomainMatches: nat
    var cacheHits: nat

    /** The fields as a state value. */
    function State(): ProxyState
      reads this
    {
      ProxyState(cache, totalRequests, lookupAttempts, preferredDomainMatches, cacheHits)
    }

    ghost predicate Valid()
      reads this
    {
      Invariant(State())
    }

    /** Process start: an empty cache and all counters at zero. */
    constructor ()
      ensures Valid()
      ensures State() == Initial
    {
      cache := map[];
      totalRequests, lookupAttempts, preferredDomainMatches, cacheHits := 0, 0, 0, 0;
    }

    /** One `/api/generate` request: the fields move to the state `Serve` gives, and
        the reply is the one it gives. */
    method Generate(req: Request, services: Services) returns (reply: Reply)
      requires Valid()
      modifies this
      ensures Valid()
      ensures State() == Serve(old(State()), req, services).state
      ensures reply == Serve(old(State()), req, services).reply
      ensures reply.Answered? ==> reply.response != ""
    {
      ServePreservesInvariant(State(), req, services);
      ServeAnswersNonEmpty(State(), req, services);
      var served := HandleRequest(State(), req, services);
      Install(served.state);
      reply := served.reply;
    }

    /** Write a state value back into the fields. */
    method Install(next: ProxyState)
      requires Invariant(next)
      modifies this
      ensures Valid()
      ensures State() == next
    {
      cache, totalRequests, lookupAttempts, preferredDomainMatches, cacheHits :=
        next.cache, next.totalRequests, next.lookupAttempts, next.preferredDomainMatches, next.cacheHits;
    }
  }

  /** The steps of `generate` on a state value, in the source's order: count the request,
      reject an empty prompt, answer a cached one, and otherwise take the miss path. */
  method HandleRequest(s: ProxyState, req: Request, services: Services) returns (served: Served)
    ensures served == Serve(s, req, services)
  {
    var state := s.(totalRequests := s.totalRequests + 1);
    var prompt := PromptKey(req);
    var model := ModelName(req);
    if prompt == "" {
      ServeRejects(s, req, services);
      return Served(state, Rejected(BadRequestStatus, PromptMissing));
    }
    if prompt in state.cache {
      ServeHit(s, req, services);
      state := state.(cacheHits := state.cacheHits + 1);
      return Served(state, Answered(state.cache[prompt].context, state.cache[prompt].response));
    }
    ServeMissLooksUp(s, req, services);
    served := MissPath(state, prompt, model, services);
  }

  /** The miss path of `generate`: count the lookup, search (an empty result list when
      the search fails), rank and compose the context, counting a preferred match, call
      the backend, aggregate its reply, and store the entry under the prompt. */
  method MissPath(s: ProxyState, prompt: string, model: string, services: Services) returns (served: Served)
    ensures served == Lookup(s, prompt, model, services)
  {
    var state := s.(lookupAttempts := s.lookupAttempts + 1);
    var entry, preferredFound := AnswerMiss(prompt, model, services);
    if preferredFound {
      state := state.(preferredDomainMatches := state.preferredDomainMatches + 1);
    }
    state := state.(cache := state.cache[prompt := entry]);
    served := Served(state, Answered(entry.context, entry.response));
  }

  /** What a miss computes for a stripped prompt and model: the context composed from
      the search and the answer the backend's reply to the augmented prompt comes to. */
  function MissEntry(prompt: string, model: string, services: Services): CacheEntry
  {
    var context := SelectContext(RawResults(services.search(prompt)), services.netlocOf, PreferredDomains);
    CacheEntry(context, FinalResponse(services.backend(PayloadFor(AugmentedPrompt(context, prompt), model))))
  }

  /** Did the search for `prompt` find a result on a preferred site? */
  predicate FoundPreferred(prompt: string, services: Services) {
    Preferred(RawResults(services.search(prompt)), services.netlocOf, PreferredDomains) != []
  }

  /** The miss path of `generate` after the lookup count: search (an empty result list when
      it fails), rank, compose the context and the augmented prompt, call the backend, and
      aggregate its reply into a never-empty answer. */
  method AnswerMiss(prompt: string, model: string, services: Services)
    returns (entry: CacheEntry, preferredFound: bool)
    ensures entry == MissEntry(prompt, model, services)
    ensures preferredFound == FoundPreferred(prompt, services)
    ensures entry.response != ""
  {
    var rawResults := SearchResults(services.search(prompt));
    var context;
    context, preferredFound := ComposeContext(rawResults, services.netlocOf);
    var fullPrompt := AugmentedPrompt(context, prompt);
    var payload := PayloadFor(fullPrompt, model);
    var outcome := services.backend(payload);
    var response := Respond(outcome);
    FinalResponseNonEmpty(outcome);
    entry := CacheEntry(context, response);
  }

  /** A well-formed cache: keys are non-empty prompts, answers are non-empty. */
  ghost predicate WellFormedCache(cache: map<string, CacheEntry>) {
    forall p :: p in cache ==> p != "" && cache[p].response != ""
  }

  /** Every key is a stripped prompt: no key starts or ends with whitespace. */
  ghost predicate KeysStripped(cache: map<string, CacheEntry>) {
    forall p :: p in cache ==> Trimmed(p)
  }

  /** Storing a non-empty answer under a new, non-empty prompt keeps the cache
      well formed and adds exactly one entry. */
  lemma StoreKeepsWellFormed(entries: map<string, CacheEntry>, prompt: string, entry: CacheEntry)
    requires WellFormedCache(entries) && prompt !in entries
    requires prompt != "" && entry.response != ""
    ensures WellFormedCache(entries[prompt := entry])
    ensures |entries[prompt := entry]| == |entries| + 1
  {
  }

  /** The search step: extract the results of a page, or none when the search failed. */
  method SearchResults(outcome: SearchOutcome) returns (raw: seq<SearchResult>)
    ensures raw == RawResults(outcome)
    ensures |raw| <= MaxResults
  {
    match outcome {
      case SearchFailed(_) =>
        raw := [];
      case Page(blocks) =>
        raw := ExtractResults(blocks);
        ExtractedBound(blocks);
    }
  }

  /** The ranking and composing step: the context, and whether a preferred result was found. */
  method ComposeContext(rawResults: seq<SearchResult>, netlocOf: string -> Option<string>)
    returns (context: string, preferredFound: bool)
    ensures context == SelectContext(rawResults, netlocOf, PreferredDomains)
    ensures preferredFound == (Preferred(rawResults, netlocOf, PreferredDomains) != [])
    ensures preferredFound <==> exists r :: r in rawResults && IsPreferred(r, netlocOf, PreferredDomains)
  {
    context := "";
    var preferredResults := Preferred(rawResults, netlocOf, PreferredDomains);
    if preferredResults != [] {
      context := SummarizeResults(preferredResults);
    } else if rawResults != [] {
      context := SummarizeResults(rawResults);
    }
    preferredFound := preferredResults != [];
    if preferredFound {
      PreferredMembers(rawResults, netlocOf, PreferredDomains, preferredResults[0]);
    } else {
      forall r | r in rawResults ensures !IsPreferred(r, netlocOf, PreferredDomains) {
        PreferredMembers(rawResults, netlocOf, PreferredDomains, r);
      }
    }
  }

  /** A miss never stores an empty answer. */
  lemma MissEntryAnswered(prompt: string, model: string, services: Services)
    ensures MissEntry(prompt, model, services).response != ""
  {
    var context := SelectContext(RawResults(services.search(prompt)), services.netlocOf, PreferredDomains);
    FinalResponseNonEmpty(services.backend(PayloadFor(AugmentedPrompt(context, prompt), model)));
  }

  /** Every request keeps the bookkeeping invariant. */
  lemma ServePreservesInvariant(s: ProxyState, req: Request, services: Services)
    requires Invariant(s)
    ensures Invariant(Serve(s, req, services).state)
  {
    var prompt := PromptKey(req);
    if prompt != "" && prompt !in s.cache {
      MissEntryAnswered(prompt, ModelName(req), services);
      StoreKeepsWellFormed(s.cache, prompt, MissEntry(prompt, ModelName(req), services));
    }
  }

  /** The process starts in a state satisfying the invariant, with no keys at all. */
  lemma InitialInvariant()
    ensures Invariant(Initial) && KeysStripped(Initial.cache)
  {
  }

  /** The cache is keyed by stripped prompts only, so a stripped key is its own key:
      a request carrying a key as its prompt finds that key. */
  lemma ServeKeepsKeysStripped(s: ProxyState, req: Request, services: Services)
    requires KeysStripped(s.cache)
    ensures KeysStripped(Serve(s, req, services).state.cache)
    ensures forall p :: p in s.cache ==> PromptKey(Request(Some(p), req.model)) == p
  {
    var prompt := PromptKey(req);
    if prompt != "" && prompt !in s.cache {
      var entry := MissEntry(prompt, ModelName(req), services);
      StripSpec(req.prompt.GetOr(""));
      StoreKeepsKeysStripped(s.cache, prompt, entry);
    }
    forall p | p in s.cache ensures PromptKey(Request(Some(p), req.model)) == p {
      TrimmedIsStripped(p);
    }
  }

  /** Storing under a stripped key keeps all keys stripped. */
  lemma StoreKeepsKeysStripped(cache: map<string, CacheEntry>, prompt: string, entry: CacheEntry)
    requires KeysStripped(cache) && Trimmed(prompt)
    ensures KeysStripped(cache[prompt := entry])
  {
  }

  /** Every request counts once; it is a hit or a lookup or neither, never both; a
      preferred match is counted only with a lookup; hits are counted exactly for a
      non-empty cached prompt, lookups exactly for a non-empty uncached one. */
  lemma ServeCounts(s: ProxyState, req: Request, services: Services)
    ensures var t := Serve(s, req, services).state;
      && t.totalRequests == s.totalRequests + 1
      && s.cacheHits <= t.cacheHits && s.lookupAttempts <= t.lookupAttempts
      && (t.cacheHits - s.cacheHits) + (t.lookupAttempts - s.lookupAttempts) <= 1
      && s.preferredDomainMatches <= t.preferredDomainMatches
      && t.preferredDomainMatches - s.preferredDomainMatches <= t.lookupAttempts - s.lookupAttempts
      && (t.cacheHits == s.cacheHits + 1 <==> PromptKey(req) != "" && PromptKey(req) in s.cache)
      && (t.lookupAttempts == s.lookupAttempts + 1 <==> PromptKey(req) != "" && PromptKey(req) !in s.cache)
  {
  }

  /** An empty key is rejected, and only the request counter moves. */
  lemma ServeRejects(s: ProxyState, req: Request, services: Services)
    requires PromptKey(req) == ""
    ensures Serve(s, req, services)
            == Served(s.(totalRequests := s.totalRequests + 1), Rejected(BadRequestStatus, PromptMissing))
  {
  }

  /** A non-empty key that is not cached takes the miss path. */
  lemma ServeMissLooksUp(s: ProxyState, req: Request, services: Services)
    requires PromptKey(req) != "" && PromptKey(req) !in s.cache
    ensures Serve(s, req, services)
            == Lookup(s.(totalRequests := s.totalRequests + 1), PromptKey(req), ModelName(req), services)
  {
  }

  /** A prompt that is absent or all whitespace is rejected with status 400, and only
      the request counter moves. */
  lemma ServeRejectsBlankPrompt(s: ProxyState, req: Request, services: Services)
    requires forall k :: 0 <= k < |req.prompt.GetOr("")| ==> IsSpace(req.prompt.GetOr("")[k])
    ensures Serve(s, req, services).reply == Rejected(BadRequestStatus, PromptMissing)
    ensures Serve(s, req, services).state == s.(totalRequests := s.totalRequests + 1)
  {
    StripEmptyIff(req.prompt.GetOr(""));
  }

  /** Only blank prompts are rejected: every other request is answered. */
  lemma ServeAnswersOtherwise(s: ProxyState, req: Request, services: Services)
    requires exists k :: 0 <= k < |req.prompt.GetOr("")| && !IsSpace(req.prompt.GetOr("")[k])
    ensures Serve(s, req, services).reply.Answered?
  {
    StripEmptyIff(req.prompt.GetOr(""));
  }

  /** A cache hit returns the stored entry and counts the hit; the cache and the other
      counters stay as they were. */
  lemma ServeHit(s: ProxyState, req: Request, services: Services)
    requires PromptKey(req) != "" && PromptKey(req) in s.cache
    ensures Serve(s, req, services).reply
            == Answered(s.cache[PromptKey(req)].context, s.cache[PromptKey(req)].response)
    ensures Serve(s, req, services).state
            == s.(totalRequests := s.totalRequests + 1, cacheHits := s.cacheHits + 1)
  {
  }

  /** A miss writes the cache exactly once, at the stripped prompt, with the entry it
      returns; it counts one lookup, and one preferred match exactly when the preferred
      filter of the search results is non-empty, in which case the context is the summary
      of that filter. */
  lemma ServeMiss(s: ProxyState, req: Request, services: Services)
    requires PromptKey(req) != "" && PromptKey(req) !in s.cache
    ensures var served := Serve(s, req, services);
      var raw := RawResults(services.search(PromptKey(req)));
      var preferred := Preferred(raw, services.netlocOf, PreferredDomains);
      && served.reply.Answered?
      && served.state.cache == s.cache[PromptKey(req) := CacheEntry(served.reply.context, served.reply.response)]
      && served.state.lookupAttempts == s.lookupAttempts + 1
      && served.state.cacheHits == s.cacheHits
      && served.state.totalRequests == s.totalRequests + 1
      && (served.state.preferredDomainMatches == s.preferredDomainMatches + 1 <==> preferred != [])
      && (served.state.preferredDomainMatches == s.preferredDomainMatches <==> preferred == [])
      && (preferred != [] ==> served.reply.context == Summary(preferred))
      && (preferred == [] ==> served.reply.context == Summary(raw))
  {
    var raw := RawResults(services.search(PromptKey(req)));
    var preferred := Preferred(raw, services.netlocOf, PreferredDomains);
    if preferred != [] {
      PreferredMembers(raw, services.netlocOf, PreferredDomains, preferred[0]);
    } else {
      forall r | r in raw ensures !IsPreferred(r, services.netlocOf, PreferredDomains) {
        PreferredMembers(raw, services.netlocOf, PreferredDomains, r);
      }
    }
  }

  /** Cached entries are never replaced or removed; at most the request's own key is added. */
  lemma CacheOnlyGrows(s: ProxyState, req: Request, services: Services)
    ensures var t := Serve(s, req, services).state;
      && (forall p :: p in s.cache ==> p in t.cache && t.cache[p] == s.cache[p])
      && (forall p :: p in t.cache && p !in s.cache ==> p == PromptKey(req))
  {
    var prompt := PromptKey(req);
    if prompt != "" && prompt !in s.cache {
      var entry := MissEntry(prompt, ModelName(req), services);
      StoreOnlyAdds(s.cache, prompt, entry);
    }
  }

  /** Storing under a new key keeps every other entry and adds only that key. */
  lemma StoreOnlyAdds(cache: map<string, CacheEntry>, prompt: string, entry: CacheEntry)
    requires prompt !in cache
    ensures forall p :: p in cache ==> p in cache[prompt := entry] && cache[prompt := entry][p] == cache[p]
    ensures forall p :: p in cache[prompt := entry] && p !in cache ==> p == prompt
  {
  }

  /** Every answer is non-empty. */
  lemma ServeAnswersNonEmpty(s: ProxyState, req: Request, services: Services)
    requires Invariant(s)
    ensures Serve(s, req, services).reply.Answered? ==> Serve(s, req, services).reply.response != ""
  {
    var prompt := PromptKey(req);
    if prompt != "" && prompt !in s.cache {
      MissEntryAnswered(prompt, ModelName(req), services);
    }
  }

  /** Asking again, with the same prompt up to surrounding whitespace, replays the first
      answer from the cache: the second request is a hit and changes nothing else. */
  lemma RepeatedPromptReplays(s: ProxyState, first: Request, again: Request, services: Services)
    requires PromptKey(first) != "" && PromptKey(again) == PromptKey(first)
    ensures var one := Serve(s, first, services);
      var two := Serve(one.state, again, services);
      && one.reply.Answered?
      && two.reply == one.reply
      && two.state == one.state.(totalRequests := one.state.totalRequests + 1,
                                 cacheHits := one.state.cacheHits + 1)
  {
    var prompt := PromptKey(first);
    var one := Serve(s, first, services);
    assert prompt in one.state.cache
        && one.reply == Answered(one.state.cache[prompt].context, one.state.cache[prompt].response);
    ServeHit(one.state, again, services);
  }
}
