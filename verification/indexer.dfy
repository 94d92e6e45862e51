/** confluence_vector_search/indexer.py: `build_index` over the unfiltered
    word chunker (a list comprehension) with its defaults. The base URL comes
    from a configuration module that is not part of this model, so it is a
    parameter here. */
module Indexer {
  import opened Python
  import opened Chunker
  import opened Confluence
  import opened Flatten
  import opened Corpus
  import VectorDb

  /** `chunk_text(clean_html(html))` with the defaults. */
  function PageChunker(clean: string -> string): string -> seq<string> {
    html => WordChunkText(clean(html), 100, 20).value
  }

  /** `build_index`: `texts` and `meta` are position-aligned, chunk ids
      restart at 0 on every page, and vector `j` embeds text `j`. */
  method BuildIndex<V>(pages: seq<Page>, base: string, clean: string -> string, embed: string -> V)
    returns (r: Result<Index<V>>)
    ensures r.Failure? <==> !AllBodies(pages) || |Entries(base, PageChunker(clean), pages)| == 0
    ensures r.Failure? ==> r.error == (if AllBodies(pages) then IndexError else KeyError)
    ensures r.Success? ==> Aligned(r.value.texts, r.value.meta, Entries(base, PageChunker(clean), pages))
    ensures r.Success? ==> |r.value.vectors| == |r.value.texts|
    ensures r.Success? ==> forall j :: 0 <= j < |r.value.texts| ==> r.value.vectors[j] == embed(r.value.texts[j])
  {
    r := Build(pages, base, PageChunker(clean), embed);
  }

  /** indexer.py and create_db.py build the same texts and metadata from the
      same pages and the same base URL: the missing `if chunk:` filter makes
      no difference. */
  lemma SameEntriesAsCreateDb(pages: seq<Page>, base: string, clean: string -> string)
    ensures Entries(base, PageChunker(clean), pages) == Entries(base, VectorDb.PageChunker(clean), pages)
  {
    forall k | 0 <= k < |pages|
      ensures EntryFn(base, PageChunker(clean))(pages[k]) == EntryFn(base, VectorDb.PageChunker(clean))(pages[k])
    {
      FilterChangesNothing(clean(BodyOrEmpty(pages[k])), 100, 20);
    }
    FlatMapCongruent(EntryFn(base, PageChunker(clean)), EntryFn(base, VectorDb.PageChunker(clean)), pages);
  }
}
