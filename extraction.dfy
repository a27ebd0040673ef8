/** The HTML result extractor (`extract_results`). The page is given as the result
    blocks the `.w-gl__result` selector finds, in document order; each block holds
    what its title anchor and its description element yield, already stripped. */
module Extraction {
  import opened Text

  /** At most this many result blocks are examined. */
  const MaxResults: nat := 6

  /** The `.w-gl__result-title` anchor: its stripped text and its `href`, if any. */
  datatype Anchor = Anchor(text: string, href: Option<string>)

  /** One `.w-gl__result` block: its title anchor and its `.w-gl__description` text. */
  datatype Block = Block(anchor: Option<Anchor>, snippet: Option<string>)

  /** An extracted result: the link and the text `title - snippet`. */
  datatype SearchResult = SearchResult(url: string, text: string)

  function Title(b: Block): string {
    match b.anchor
    case Some(a) => a.text
    case None => ""
  }

  /** The block's link; `None` when the anchor has no `href` (Python's `None`). */
  function Href(b: Block): Option<string> {
    match b.anchor
    case Some(a) => a.href
    case None => Some("")
  }

  function SnippetText(b: Block): string {
    b.snippet.GetOr("")
  }

  /** A block is kept when both its title and its link are non-empty (ollama_proxy.py line 37). */
  predicate Usable(b: Block) {
    Title(b) != "" && Href(b).Some? && Href(b).value != ""
  }

  /** What one usable block contributes. */
  function ResultOf(b: Block): SearchResult
    requires Usable(b)
  {
    SearchResult(Href(b).value, Title(b) + " - " + SnippetText(b))
  }

  /** The results of a run of blocks, in order, skipping the unusable ones. */
  function Keep(blocks: seq<Block>): seq<SearchResult>
    decreases |blocks|
  {
    if blocks == [] then []
    else
      var last := blocks[|blocks| - 1];
      Keep(blocks[..|blocks| - 1]) + (if Usable(last) then [ResultOf(last)] else [])
  }

  /** The blocks the loop examines: the first six (ollama_proxy.py line 30). */
  function Examined(blocks: seq<Block>): seq<Block> {
    if |blocks| <= MaxResults then blocks else blocks[..MaxResults]
  }

  /** `extract_results` as a value: the kept results of the first six blocks. */
  function Extracted(blocks: seq<Block>): seq<SearchResult> {
    Keep(Examined(blocks))
  }

  /** The loop of `extract_results`: walk the first six blocks, appending one
      result per usable block. */
  method ExtractResults(blocks: seq<Block>) returns (results: seq<SearchResult>)
    ensures results == Extracted(blocks)
  {
    var examined := if |blocks| <= MaxResults then blocks else blocks[..MaxResults];
    results := [];
    var i := 0;
    while i < |examined|
      invariant 0 <= i <= |examined|
      invariant results == Keep(examined[..i])
    {
      var block := examined[i];
      assert Keep(examined[..i + 1]) == Keep(examined[..i]) + (if Usable(block) then [ResultOf(block)] else []) by {
        assert examined[..i + 1][..i] == examined[..i];
      }
      var title := Title(block);
      var url := Href(block);
      var snippet := SnippetText(block);
      if title != "" && url.Some? && url.value != "" {
        results := results + [SearchResult(url.value, title + " - " + snippet)];
      }
      i := i + 1;
    }
    assert examined[..i] == examined;
  }

  /** Keeping never adds results: at most one per block. */
  lemma {:induction false} KeepLength(blocks: seq<Block>)
    ensures |Keep(blocks)| <= |blocks|
    decreases |blocks|
  {
    if blocks != [] {
      KeepLength(blocks[..|blocks| - 1]);
    }
  }

  /** Keeping distributes over concatenation, so results appear in block order. */
  lemma {:induction false} KeepAppend(a: seq<Block>, b: seq<Block>)
    ensures Keep(a + b) == Keep(a) + Keep(b)
    decreases |b|
  {
    if b == [] {
      assert a + b == a;
    } else {
      assert (a + b)[..|a + b| - 1] == a + b[..|b| - 1];
      KeepAppend(a, b[..|b| - 1]);
    }
  }

  /** A result is extracted from a run of blocks exactly when some usable block produces it. */
  lemma {:induction false} KeepMembers(blocks: seq<Block>, r: SearchResult)
    ensures r in Keep(blocks) <==>
            exists i :: 0 <= i < |blocks| && Usable(blocks[i]) && ResultOf(blocks[i]) == r
    decreases |blocks|
  {
    if blocks != [] {
      var init := blocks[..|blocks| - 1];
      KeepMembers(init, r);
      if r in Keep(init) {
        var i :| 0 <= i < |init| && Usable(init[i]) && ResultOf(init[i]) == r;
        assert blocks[i] == init[i];
      }
      if exists i :: 0 <= i < |blocks| && Usable(blocks[i]) && ResultOf(blocks[i]) == r {
        var i :| 0 <= i < |blocks| && Usable(blocks[i]) && ResultOf(blocks[i]) == r;
        if i < |init| {
          assert init[i] == blocks[i];
        }
      }
    }
  }

  /** At most six results, whatever the size of the page. */
  lemma ExtractedBound(blocks: seq<Block>)
    ensures |Extracted(blocks)| <= MaxResults
    ensures |Extracted(blocks)| <= |blocks|
  {
    KeepLength(Examined(blocks));
  }

  /** Every extracted result comes from a usable block among the first six: its link is
      non-empty, its text is `title + " - " + snippet` (snippet `""` when the description is
      absent), and conversely every usable block among the first six yields its result. */
  lemma ExtractedMembers(blocks: seq<Block>, r: SearchResult)
    ensures r in Extracted(blocks) <==>
            exists i :: 0 <= i < |blocks| && i < MaxResults && Usable(blocks[i]) && ResultOf(blocks[i]) == r
    ensures r in Extracted(blocks) ==> r.url != ""
  {
    var ex := Examined(blocks);
    KeepMembers(ex, r);
    if r in Extracted(blocks) {
      var i :| 0 <= i < |ex| && Usable(ex[i]) && ResultOf(ex[i]) == r;
      assert blocks[i] == ex[i];
    }
    if exists i :: 0 <= i < |blocks| && i < MaxResults && Usable(blocks[i]) && ResultOf(blocks[i]) == r {
      var i :| 0 <= i < |blocks| && i < MaxResults && Usable(blocks[i]) && ResultOf(blocks[i]) == r;
      assert ex[i] == blocks[i];
    }
  }

  /** Blocks after the sixth never matter: a page extends to more blocks without changing
      what is extracted from its first six. */
  lemma ExtractedIgnoresLaterBlocks(blocks: seq<Block>, more: seq<Block>)
    requires |blocks| >= MaxResults
    ensures Extracted(blocks + more) == Extracted(blocks)
  {
    assert (blocks + more)[..MaxResults] == blocks[..MaxResults];
    assert Examined(blocks) == blocks[..MaxResults];
    assert Examined(blocks + more) == blocks[..MaxResults];
  }

  /** An unusable block is skipped without affecting the blocks around it. */
  lemma UnusableBlockSkipped(before: seq<Block>, b: Block, after: seq<Block>)
    requires !Usable(b)
    ensures Keep(before + [b] + after) == Keep(before) + Keep(after)
  {
    assert [b][..0] == [];
    assert Keep([b]) == [];
    KeepAppend(before, [b]);
    KeepAppend(before + [b], after);
  }
}
