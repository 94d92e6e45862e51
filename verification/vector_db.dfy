/** create_db.py: `build_vector_db` over the filtering word chunker with its
    defaults (100 words, overlap 20), and the join in `search` that turns the
    ids returned by the index into results. The query embedding and the L2
    search itself are outside the model: `search` is given the id list. */
module VectorDb {
  import opened Python
  import opened Windows
  import opened Chunker
  import opened Confluence
  import opened Flatten
  import opened Corpus

  /** `chunk_text(clean_html(html))` with the defaults. */
  function PageChunker(clean: string -> string): string -> seq<string> {
    html => FilteredWordChunkText(clean(html), 100, 20).value
  }

  /** `build_vector_db`: every stored text is a non-empty chunk of at most
      100 words, paired with its page's metadata and its own embedding. */
  method BuildVectorDb<V>(pages: seq<Page>, clean: string -> string, embed: string -> V)
    returns (r: Result<Index<V>>)
    ensures r.Failure? <==> !AllBodies(pages) || |Entries(BaseUrl, PageChunker(clean), pages)| == 0
    ensures r.Success? ==> Aligned(r.value.texts, r.value.meta, Entries(BaseUrl, PageChunker(clean), pages))
    ensures r.Success? ==> |r.value.vectors| == |r.value.texts|
    ensures r.Success? ==> forall j :: 0 <= j < |r.value.texts| ==>
              && r.value.vectors[j] == embed(r.value.texts[j])
              && r.value.texts[j] != ""
              && 1 <= |Split(r.value.texts[j])| <= 100
  {
    r := Build(pages, BaseUrl, PageChunker(clean), embed);
    if r.Success? {
      var entries := Entries(BaseUrl, PageChunker(clean), pages);
      forall j | 0 <= j < |r.value.texts|
        ensures r.value.texts[j] != "" && 1 <= |Split(r.value.texts[j])| <= 100
      {
        var (p, i) := Locate(EntryFn(BaseUrl, PageChunker(clean)), pages, j);
        EntryOrigin(BaseUrl, PageChunker(clean), pages, j);
        var text := clean(BodyOrEmpty(pages[p]));
        FilterChangesNothing(text, 100, 20);
        WordChunksResplit(text, 100, 20);
      }
    }
  }

  /** One search result: `{"text", "title", "url"}`. */
  datatype Hit = Hit(text: string, title: string, url: string)

  /** The result built from position `i` of the two lists. */
  function HitAt(chunks: seq<string>, metadata: seq<Meta>, i: int): Hit
    requires -|chunks| <= i < |chunks| && -|metadata| <= i < |metadata|
  {
    Hit(PyIndex(chunks, i), PyIndex(metadata, i).title, PyIndex(metadata, i).url)
  }

  /** The loop over `indices[0]` in `search`, as written: every id is used
      as a Python index, so a negative id counts from the end of the lists. */
  function Search(ids: seq<int>, chunks: seq<string>, metadata: seq<Meta>): (hits: seq<Hit>)
    requires forall j :: 0 <= j < |ids| ==> -|chunks| <= ids[j] < |chunks| && -|metadata| <= ids[j] < |metadata|
    ensures |hits| == |ids|
    ensures |chunks| == |metadata| ==> forall j :: 0 <= j < |ids| ==>
              var q := Position(|chunks|, ids[j]);
              hits[j] == Hit(chunks[q], metadata[q].title, metadata[q].url)
  {
    seq(|ids|, j requires 0 <= j < |ids| => HitAt(chunks, metadata, ids[j]))
  }

  /** Against lists produced by the build, result `j` is assembled from one
      entry: its text, title and url all belong to chunk `i` of page `p`. */
  lemma SearchHitsCoherent(chunker: string -> seq<string>, pages: seq<Page>, texts: seq<string>, meta: seq<Meta>, ids: seq<int>)
    requires Aligned(texts, meta, Entries(BaseUrl, chunker, pages))
    requires forall j :: 0 <= j < |ids| ==> -|texts| <= ids[j] < |texts|
    ensures forall j :: 0 <= j < |ids| ==>
              var (p, i) := Locate(EntryFn(BaseUrl, chunker), pages, Position(|texts|, ids[j]));
              Search(ids, texts, meta)[j] == Hit(chunker(BodyOrEmpty(pages[p]))[i], pages[p].title, PageUrl(BaseUrl, pages[p].id))
  {
    forall j | 0 <= j < |ids|
      ensures var (p, i) := Locate(EntryFn(BaseUrl, chunker), pages, Position(|texts|, ids[j]));
              Search(ids, texts, meta)[j] == Hit(chunker(BodyOrEmpty(pages[p]))[i], pages[p].title, PageUrl(BaseUrl, pages[p].id))
    {
      EntryOrigin(BaseUrl, chunker, pages, Position(|texts|, ids[j]));
    }
  }

  // ---------------------------------------------------------------- padded ids

  /** The shape of an id row from a flat L2 index asked for `k` neighbours
      of `n` vectors: `min(k, n)` valid ids, then `-1` padding. */
  predicate PaddedIds(ids: seq<int>, n: nat, k: nat) {
    && |ids| == k
    && (forall j :: 0 <= j < |ids| && j < Min(k, n) ==> 0 <= ids[j] < n)
    && (forall j :: 0 <= j < |ids| && Min(k, n) <= j ==> ids[j] == -1)
  }

  /** As written, a padding id `-1` yields the last chunk again: asking for 3
      results from a two-chunk index repeats the second chunk. */
  lemma PaddingRepeatsLastChunk(m0: Meta, m1: Meta)
    ensures PaddedIds([0, 1, -1], 2, 3)
    ensures Search([0, 1, -1], ["a", "b"], [m0, m1])
         == [Hit("a", m0.title, m0.url), Hit("b", m1.title, m1.url), Hit("b", m1.title, m1.url)]
  {
  }

  /** The join with padding ids dropped: only real neighbours become results. */
  function SearchHits(ids: seq<int>, chunks: seq<string>, metadata: seq<Meta>): (hits: seq<Hit>)
    requires forall j :: 0 <= j < |ids| ==> ids[j] < |chunks| && ids[j] < |metadata|
    ensures |hits| <= |ids|
    ensures forall h :: h in hits ==> exists i :: 0 <= i < |chunks| && i < |metadata| && h == HitAt(chunks, metadata, i)
  {
    if |ids| == 0 then []
    else
      var rest := SearchHits(ids[1..], chunks, metadata);
      if ids[0] < 0 then rest else [HitAt(chunks, metadata, ids[0])] + rest
  }

  lemma {:induction false} SearchHitsDropsPadding(ids: seq<int>, chunks: seq<string>, metadata: seq<Meta>, valid: nat)
    requires valid <= |ids|
    requires forall j :: 0 <= j < valid ==> 0 <= ids[j] < |chunks| && ids[j] < |metadata|
    requires forall j :: valid <= j < |ids| ==> ids[j] == -1
    ensures SearchHits(ids, chunks, metadata) == Search(ids[..valid], chunks, metadata)
    decreases |ids|
  {
    if |ids| > 0 {
      if valid == 0 {
        SearchHitsDropsPadding(ids[1..], chunks, metadata, 0);
      } else {
        SearchHitsDropsPadding(ids[1..], chunks, metadata, valid - 1);
        assert ids[1..][..valid - 1] == ids[..valid][1..];
      }
    }
  }

  /** With padded ids the corrected join returns exactly `min(k, n)`
      results, the as-written join's results for the real ids, in order. */
  lemma SearchHitsCount(ids: seq<int>, chunks: seq<string>, metadata: seq<Meta>, k: nat)
    requires |metadata| == |chunks|
    requires PaddedIds(ids, |chunks|, k)
    ensures |SearchHits(ids, chunks, metadata)| == Min(k, |chunks|)
    ensures SearchHits(ids, chunks, metadata) == Search(ids[..Min(k, |chunks|)], chunks, metadata)
  {
    SearchHitsDropsPadding(ids, chunks, metadata, Min(k, |chunks|));
  }
}
