/** The build loop shared by `build_vector_db` (create_db.py) and
    `build_index` (confluence_vector_search/indexer.py): every page's chunks
    are appended to a list of texts while a parallel list receives one
    metadata entry per chunk; the texts are then embedded and the vectors
    added to a flat L2 index, whose ids are insertion positions.

    The embedding model is the parameter `embed`; the index is the list of
    vectors in insertion order. */
module Corpus {
  import opened Python
  import opened Confluence
  import opened Flatten

  /** A chunk text and the metadata entry appended next to it. */
  type Entry = (string, Meta)

  /** The entries one page contributes: chunk `i` of the page's text with
      `chunk_id` `i`. */
  function PageEntries(base: string, chunker: string -> seq<string>, page: Page): seq<Entry> {
    var chunks := chunker(BodyOrEmpty(page));
    seq(|chunks|, i requires 0 <= i < |chunks| => (chunks[i], Meta(page.title, i, PageUrl(base, page.id))))
  }

  function EntryFn(base: string, chunker: string -> seq<string>): Page -> seq<Entry> {
    page => PageEntries(base, chunker, page)
  }

  /** All entries, page by page. */
  function Entries(base: string, chunker: string -> seq<string>, pages: seq<Page>): seq<Entry> {
    FlatMap(EntryFn(base, chunker), pages)
  }

  /** `texts` and `meta` are the two halves of `entries`, position by position. */
  predicate Aligned(texts: seq<string>, meta: seq<Meta>, entries: seq<Entry>) {
    && |texts| == |entries|
    && |meta| == |entries|
    && forall j :: 0 <= j < |entries| ==> texts[j] == entries[j].0 && meta[j] == entries[j].1
  }

  /** The nested loop: for each page, for each `(i, chunk)`, append the chunk
      to `texts` and `{title, chunk_id: i, url}` to `meta`. A page without a
      storage body raises KeyError and abandons the build. */
  method CollectChunks(pages: seq<Page>, base: string, chunker: string -> seq<string>)
    returns (r: Result<(seq<string>, seq<Meta>)>)
    ensures r.Failure? <==> !AllBodies(pages)
    ensures r.Failure? ==> r.error == KeyError
    ensures r.Success? ==> Aligned(r.value.0, r.value.1, Entries(base, chunker, pages))
  {
    var texts: seq<string> := [];
    var meta: seq<Meta> := [];
    var p := 0;
    while p < |pages|
      invariant 0 <= p <= |pages|
      invariant AllBodies(pages[..p])
      invariant Aligned(texts, meta, Entries(base, chunker, pages[..p]))
    {
      var page := pages[p];
      if page.body.None? {
        return Failure(KeyError);
      }
      var chunks := chunker(page.body.value);
      var url := PageUrl(base, page.id);
      ghost var done := Entries(base, chunker, pages[..p]);
      ghost var mine := PageEntries(base, chunker, page);
      var i := 0;
      while i < |chunks|
        invariant 0 <= i <= |chunks|
        invariant Aligned(texts, meta, done + mine[..i])
      {
        texts := texts + [chunks[i]];
        meta := meta + [Meta(page.title, i, url)];
        assert done + mine[..i + 1] == (done + mine[..i]) + [mine[i]];
        i := i + 1;
      }
      assert mine[..i] == mine;
      assert pages[..p + 1] == pages[..p] + [page];
      FlatMapAppend(EntryFn(base, chunker), pages[..p], [page]);
      FlatMapOne(EntryFn(base, chunker), page);
      p := p + 1;
    }
    assert pages[..p] == pages;
    return Success((texts, meta));
  }

  /** What the build returns: the index (its vectors in insertion order)
      with the chunk texts and metadata aligned to it. */
  datatype Index<V> = Index(vectors: seq<V>, texts: seq<string>, meta: seq<Meta>)

  /** The whole build: collect, embed every text, create the index. An empty
      text list makes `embeddings.shape[1]` raise IndexError. */
  method Build<V>(pages: seq<Page>, base: string, chunker: string -> seq<string>, embed: string -> V)
    returns (r: Result<Index<V>>)
    ensures r.Failure? <==> !AllBodies(pages) || |Entries(base, chunker, pages)| == 0
    ensures r.Failure? ==> r.error == (if AllBodies(pages) then IndexError else KeyError)
    ensures r.Success? ==> Aligned(r.value.texts, r.value.meta, Entries(base, chunker, pages))
    ensures r.Success? ==> |r.value.vectors| == |r.value.texts|
    ensures r.Success? ==> forall j :: 0 <= j < |r.value.vectors| ==> r.value.vectors[j] == embed(r.value.texts[j])
  {
    var collected := CollectChunks(pages, base, chunker);
    if collected.Failure? {
      return Failure(collected.error);
    }
    var (texts, meta) := collected.value;
    var vectors := seq(|texts|, j requires 0 <= j < |texts| => embed(texts[j]));
    if |vectors| == 0 {
      return Failure(IndexError);
    }
    return Success(Index(vectors, texts, meta));
  }

  /** Entry `j` is chunk `i` of page `p` paired with that page's title, the
      chunk id `i` and the page's URL, where `(p, i)` is where `j` came from. */
  lemma EntryOrigin(base: string, chunker: string -> seq<string>, pages: seq<Page>, j: nat)
    requires j < |Entries(base, chunker, pages)|
    ensures var (p, i) := Locate(EntryFn(base, chunker), pages, j);
            && i < |chunker(BodyOrEmpty(pages[p]))|
            && Entries(base, chunker, pages)[j]
               == (chunker(BodyOrEmpty(pages[p]))[i], Meta(pages[p].title, i, PageUrl(base, pages[p].id)))
  {
  }

  /** Conversely chunk `i` of page `p` is entry `Offset(p) + i`: chunk ids
      restart at 0 on every page and count up by one. */
  lemma EveryChunkEntered(base: string, chunker: string -> seq<string>, pages: seq<Page>, p: nat, i: nat)
    requires p < |pages| && i < |chunker(BodyOrEmpty(pages[p]))|
    ensures Offset(EntryFn(base, chunker), pages, p) + i < |Entries(base, chunker, pages)|
    ensures Entries(base, chunker, pages)[Offset(EntryFn(base, chunker), pages, p) + i]
         == (chunker(BodyOrEmpty(pages[p]))[i], Meta(pages[p].title, i, PageUrl(base, pages[p].id)))
  {
    ItemPosition(EntryFn(base, chunker), pages, p, i);
  }

  /** The number of entries is the sum of the pages' chunk counts. */
  lemma EntryCount(base: string, chunker: string -> seq<string>, pages: seq<Page>)
    ensures |Entries(base, chunker, pages)| == SumOf(page => |chunker(BodyOrEmpty(page))|, pages)
  {
    FlatMapLength(EntryFn(base, chunker), page => |chunker(BodyOrEmpty(page))|, pages);
  }
}
