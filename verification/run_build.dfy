/** run.py: `extract_chunks_from_confluence` turns the pages of one space
    into a single list of chunk records, windowing each page's sentences 5 at
    a time with overlap 2. `clean_html` and `sent_tokenize` are the
    parameters `clean` and `tokenize`. */
module RunBuild {
  import opened Python
  import opened Chunker
  import opened Confluence
  import opened Flatten

  /** `{"page_id", "title", "chunk_index", "text", "url"}` */
  datatype PageChunk = PageChunk(pageId: string, title: string, chunkIndex: nat, text: string, url: string)

  /** The records `enumerate(chunks)` appends for one page. */
  function PageRecords(clean: string -> string, tokenize: string -> seq<string>, page: Page): seq<PageChunk> {
    var chunks := PageChunks(clean, tokenize, BodyOrEmpty(page));
    seq(|chunks|, i requires 0 <= i < |chunks| =>
      PageChunk(page.id, page.title, i, chunks[i], PageUrl(BaseUrl, page.id)))
  }

  function RecordFn(clean: string -> string, tokenize: string -> seq<string>): Page -> seq<PageChunk> {
    page => PageRecords(clean, tokenize, page)
  }

  /** `extract_chunks_from_confluence` over the fetched pages, page by page:
      each page's records are appended in turn. The page body is read with
      plain indexing, so the first page without a body raises KeyError and
      the records gathered so far are lost with the exception. */
  function ExtractChunks(clean: string -> string, tokenize: string -> seq<string>, pages: seq<Page>): (r: Result<seq<PageChunk>>)
    ensures r.Failure? <==> !AllBodies(pages)
    ensures r.Failure? ==> r.error == KeyError
    ensures r.Success? ==> r.value == FlatMap(RecordFn(clean, tokenize), pages)
    decreases |pages|
  {
    if |pages| == 0 then Success([])
    else if pages[0].body.None? then Failure(KeyError)
    else
      var rest :- ExtractChunks(clean, tokenize, pages[1..]);
      assert forall p :: 1 <= p < |pages| ==> pages[p] == pages[1..][p - 1];
      Success(PageRecords(clean, tokenize, pages[0]) + rest)
  }

  /** Record `j` is chunk `i` of page `p`: it carries that page's id and
      title, `chunk_index` `i`, and the URL built from the page id alone. */
  lemma RecordOrigin(clean: string -> string, tokenize: string -> seq<string>, pages: seq<Page>, j: nat)
    requires AllBodies(pages)
    requires j < |ExtractChunks(clean, tokenize, pages).value|
    ensures var (p, i) := Locate(RecordFn(clean, tokenize), pages, j);
            var chunks := PageChunks(clean, tokenize, BodyOrEmpty(pages[p]));
            && i < |chunks|
            && ExtractChunks(clean, tokenize, pages).value[j]
               == PageChunk(pages[p].id, pages[p].title, i, chunks[i], PageUrl(BaseUrl, pages[p].id))
  {
  }

  /** Records follow page order, then chunk order within a page. */
  lemma RecordsInPageOrder(clean: string -> string, tokenize: string -> seq<string>, pages: seq<Page>, j1: nat, j2: nat)
    requires AllBodies(pages)
    requires j1 < j2 < |ExtractChunks(clean, tokenize, pages).value|
    ensures var (p1, i1) := Locate(RecordFn(clean, tokenize), pages, j1);
            var (p2, i2) := Locate(RecordFn(clean, tokenize), pages, j2);
            p1 < p2 || (p1 == p2 && i1 < i2)
  {
    LocateOrdered(RecordFn(clean, tokenize), pages, j1, j2);
  }

  /** Every chunk of every page is recorded, at `Offset(p) + i`, with
      `chunk_index` `i`: the index restarts at 0 for each page. */
  lemma EveryChunkRecorded(clean: string -> string, tokenize: string -> seq<string>, pages: seq<Page>, p: nat, i: nat)
    requires AllBodies(pages)
    requires p < |pages| && i < |PageChunks(clean, tokenize, BodyOrEmpty(pages[p]))|
    ensures Offset(RecordFn(clean, tokenize), pages, p) + i < |ExtractChunks(clean, tokenize, pages).value|
    ensures ExtractChunks(clean, tokenize, pages).value[Offset(RecordFn(clean, tokenize), pages, p) + i].chunkIndex == i
    ensures ExtractChunks(clean, tokenize, pages).value[Offset(RecordFn(clean, tokenize), pages, p) + i].text
         == PageChunks(clean, tokenize, BodyOrEmpty(pages[p]))[i]
  {
    ItemPosition(RecordFn(clean, tokenize), pages, p, i);
  }

  /** The number of records is the sum of the pages' chunk counts. */
  lemma RecordCount(clean: string -> string, tokenize: string -> seq<string>, pages: seq<Page>)
    requires AllBodies(pages)
    ensures |ExtractChunks(clean, tokenize, pages).value| == SumOf(page => |PageChunks(clean, tokenize, BodyOrEmpty(page))|, pages)
  {
    FlatMapLength(RecordFn(clean, tokenize), page => |PageChunks(clean, tokenize, BodyOrEmpty(page))|, pages);
  }
}
