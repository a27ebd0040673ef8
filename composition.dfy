/** The context composer: `summarize_results`, the choice between preferred and
    all results, and the prompt template sent to the generation backend. */
module Composition {
  import opened Text
  import opened Extraction
  import opened Domains

  /** One result as a line of context: `<title_snippet> (Source: <link>)`. */
  function Render(r: SearchResult): string {
    r.text + " (Source: " + r.url + ")"
  }

  /** The rendered lines of a run of results, in order. */
  function Renders(results: seq<SearchResult>): (lines: seq<string>)
    ensures |lines| == |results|
    ensures forall i :: 0 <= i < |results| ==> lines[i] == Render(results[i])
    decreases |results|
  {
    if results == [] then []
    else Renders(results[..|results| - 1]) + [Render(results[|results| - 1])]
  }

  /** `summarize_results` as a value: the rendered lines joined by newlines. */
  function Summary(results: seq<SearchResult>): string {
    Join("\n", Renders(results))
  }

  /** The loop of `summarize_results`: collect one rendered line per result, then join. */
  method SummarizeResults(results: seq<SearchResult>) returns (summary: string)
    ensures summary == Summary(results)
  {
    var output: seq<string> := [];
    for i := 0 to |results|
      invariant |output| == i
      invariant forall k :: 0 <= k < i ==> output[k] == Render(results[k])
    {
      output := output + [results[i].text + " (Source: " + results[i].url + ")"];
    }
    assert output == Renders(results);
    summary := Join("\n", output);
  }

  /** No results, no context. */
  lemma SummaryEmpty()
    ensures Summary([]) == ""
  {
  }

  /** A single result is its own line, with no separator. */
  lemma SummarySingle(r: SearchResult)
    ensures Summary([r]) == Render(r)
  {
  }

  /** Summaries of consecutive runs are joined by exactly one newline, so the lines
      keep the order of the results. */
  lemma SummaryAppend(a: seq<SearchResult>, b: seq<SearchResult>)
    requires a != [] && b != []
    ensures Summary(a + b) == Summary(a) + "\n" + Summary(b)
  {
    assert Renders(a + b) == Renders(a) + Renders(b);
    JoinAppend("\n", Renders(a), Renders(b));
  }

  /** Composing `n` results adds exactly `n - 1` newlines to those inside the lines. */
  lemma SummaryNewlines(results: seq<SearchResult>)
    requires results != []
    ensures Occurrences('\n', Summary(results)) == OccurrencesIn('\n', Renders(results)) + |results| - 1
  {
    JoinOccurrences('\n', Renders(results));
  }

  /** The results context is composed from: the preferred ones when there are any,
      otherwise all of them. */
  function Selected(raw: seq<SearchResult>, netlocOf: string -> Option<string>, domains: seq<string>): seq<SearchResult> {
    var preferred := Preferred(raw, netlocOf, domains);
    if preferred != [] then preferred else raw
  }

  /** The context of `generate` (ollama_proxy.py lines 94-100), in the source's three branches. */
  function SelectContext(raw: seq<SearchResult>, netlocOf: string -> Option<string>, domains: seq<string>): string {
    var preferred := Preferred(raw, netlocOf, domains);
    if preferred != [] then Summary(preferred)
    else if raw != [] then Summary(raw)
    else ""
  }

  /** The selection: only results already found, all of them preferred when any is,
      every preferred one kept, and the whole list when none is preferred. The context
      is the summary of the selection. */
  lemma SelectContextSpec(raw: seq<SearchResult>, netlocOf: string -> Option<string>, domains: seq<string>)
    ensures SelectContext(raw, netlocOf, domains) == Summary(Selected(raw, netlocOf, domains))
    ensures forall r :: r in Selected(raw, netlocOf, domains) ==> r in raw
    ensures (exists r :: r in raw && IsPreferred(r, netlocOf, domains)) ==>
              (forall r :: r in Selected(raw, netlocOf, domains) <==> r in raw && IsPreferred(r, netlocOf, domains))
    ensures (forall r :: r in raw ==> !IsPreferred(r, netlocOf, domains)) ==>
              Selected(raw, netlocOf, domains) == raw
  {
    forall r {
      PreferredMembers(raw, netlocOf, domains, r);
    }
    if forall r :: r in raw ==> !IsPreferred(r, netlocOf, domains) {
      PreferredNone(raw, netlocOf, domains);
    }
  }

  /** One result on a preferred site among others: the context is that result's line alone. */
  lemma SinglePreferredContext(raw: seq<SearchResult>, netlocOf: string -> Option<string>, domains: seq<string>, k: nat)
    requires k < |raw| && IsPreferred(raw[k], netlocOf, domains)
    requires forall j :: 0 <= j < |raw| && j != k ==> !IsPreferred(raw[j], netlocOf, domains)
    ensures SelectContext(raw, netlocOf, domains) == Render(raw[k])
  {
    PreferredSingle(raw, netlocOf, domains, k);
  }

  /** The fixed text before the context. */
  const PromptHead: string := "You are a helpful World of Warcraft assistant.\nUse the following context to answer the question.\n\nContext:\n"

  /** The fixed text between the context and the question. */
  const QuestionHead: string := "\n\nQuestion: "

  /** The fixed text after the question. */
  const AnswerCue: string := "\nAnswer:"

  /** The augmented prompt (ollama_proxy.py line 102). */
  function AugmentedPrompt(context: string, question: string): string {
    PromptHead + context + QuestionHead + question + AnswerCue
  }

  /** The template's layout: the instruction head, then the context verbatim, then the
      question head, the question verbatim and the answer cue; with an empty context the
      `Context:` section is still present, empty. */
  lemma AugmentedPromptLayout(context: string, question: string)
    ensures var p := AugmentedPrompt(context, question);
      var c := |PromptHead|;
      var q := c + |context| + |QuestionHead|;
      && |p| == q + |question| + |AnswerCue|
      && p[..c] == PromptHead
      && p[c..c + |context|] == context
      && p[c + |context|..q] == QuestionHead
      && p[q..q + |question|] == question
      && p[q + |question|..] == AnswerCue
  {
  }

  /** For a given question, the augmented prompt determines the context it was built from. */
  lemma AugmentedPromptDeterminesContext(c1: string, c2: string, question: string)
    requires AugmentedPrompt(c1, question) == AugmentedPrompt(c2, question)
    ensures c1 == c2
  {
    AugmentedPromptLayout(c1, question);
    AugmentedPromptLayout(c2, question);
  }
}
