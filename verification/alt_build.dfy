/** alt.py: `process_all_spaces` walks every space, fetches its pages, and
    turns every page with a non-empty storage body into chunk records that
    carry the space's key and name. A space whose page fetch raises is
    reported and skipped. Fetching is not modelled: a space holds its fetched
    pages, or `None` when the fetch raised. `clean_html` and `sent_tokenize`
    are the parameters `clean` and `tokenize`. */
module AltBuild {
  import opened Chunker
  import opened Confluence
  import opened Flatten

  /** A space object with the outcome of `fetch_pages_for_space(key)`. */
  datatype Space = Space(key: string, name: string, pages: Option<seq<Page>>)

  /** `{"space_key", "space_name", "page_id", "title", "chunk_index", "text", "url"}` */
  datatype ChunkRecord = ChunkRecord(
    spaceKey: string, spaceName: string, pageId: string, title: string,
    chunkIndex: nat, text: string, url: string)

  /** The records one page contributes; a page whose body is missing or
      empty contributes none. */
  function PageRecords(clean: string -> string, tokenize: string -> seq<string>, space: Space, page: Page): seq<ChunkRecord> {
    var html := BodyOrEmpty(page);
    if html == "" then []
    else
      var chunks := PageChunks(clean, tokenize, html);
      seq(|chunks|, i requires 0 <= i < |chunks| =>
        ChunkRecord(space.key, space.name, page.id, page.title, i, chunks[i], PageUrl(BaseUrl, page.id)))
  }

  function PageFn(clean: string -> string, tokenize: string -> seq<string>, space: Space): Page -> seq<ChunkRecord> {
    page => PageRecords(clean, tokenize, space, page)
  }

  /** The records one space contributes: none when its page fetch failed. */
  function SpaceRecords(clean: string -> string, tokenize: string -> seq<string>, space: Space): seq<ChunkRecord> {
    match space.pages
    case None => []
    case Some(pages) => FlatMap(PageFn(clean, tokenize, space), pages)
  }

  function SpaceFn(clean: string -> string, tokenize: string -> seq<string>): Space -> seq<ChunkRecord> {
    space => SpaceRecords(clean, tokenize, space)
  }

  /** `process_all_spaces` over the fetched spaces. */
  function ProcessAllSpaces(clean: string -> string, tokenize: string -> seq<string>, spaces: seq<Space>): seq<ChunkRecord> {
    FlatMap(SpaceFn(clean, tokenize), spaces)
  }

  /** Where record `j` came from: space `s`, page `p` of that space, chunk
      `i` of that page. The page was fetched and has a non-empty body, and
      the record carries exactly that space's key and name, that page's id,
      title and URL, and `chunk_index` `i`. */
  function RecordOrigin(clean: string -> string, tokenize: string -> seq<string>, spaces: seq<Space>, j: nat): (o: (nat, nat, nat))
    requires j < |ProcessAllSpaces(clean, tokenize, spaces)|
    ensures o.0 < |spaces| && spaces[o.0].pages.Some? && o.1 < |spaces[o.0].pages.value|
    ensures var space := spaces[o.0];
            var page := space.pages.value[o.1];
            && BodyOrEmpty(page) != ""
            && o.2 < |PageChunks(clean, tokenize, BodyOrEmpty(page))|
            && ProcessAllSpaces(clean, tokenize, spaces)[j]
               == ChunkRecord(space.key, space.name, page.id, page.title, o.2,
                              PageChunks(clean, tokenize, BodyOrEmpty(page))[o.2], PageUrl(BaseUrl, page.id))
  {
    var (s, k) := Locate(SpaceFn(clean, tokenize), spaces, j);
    var (p, i) := Locate(PageFn(clean, tokenize, spaces[s]), spaces[s].pages.value, k);
    (s, p, i)
  }

  /** Output order is space order, then page order, then chunk order. */
  lemma RecordsInOrder(clean: string -> string, tokenize: string -> seq<string>, spaces: seq<Space>, j1: nat, j2: nat)
    requires j1 < j2 < |ProcessAllSpaces(clean, tokenize, spaces)|
    ensures var (s1, p1, i1) := RecordOrigin(clean, tokenize, spaces, j1);
            var (s2, p2, i2) := RecordOrigin(clean, tokenize, spaces, j2);
            s1 < s2 || (s1 == s2 && (p1 < p2 || (p1 == p2 && i1 < i2)))
  {
    LocateOrdered(SpaceFn(clean, tokenize), spaces, j1, j2);
    var (s1, k1) := Locate(SpaceFn(clean, tokenize), spaces, j1);
    var (s2, k2) := Locate(SpaceFn(clean, tokenize), spaces, j2);
    if s1 == s2 {
      LocateOrdered(PageFn(clean, tokenize, spaces[s1]), spaces[s1].pages.value, k1, k2);
    }
  }

  /** Every chunk of every processed page is recorded, with `chunk_index`
      equal to its position in the page's chunk list. */
  lemma EveryChunkRecorded(clean: string -> string, tokenize: string -> seq<string>, spaces: seq<Space>, s: nat, p: nat, i: nat)
    requires s < |spaces| && spaces[s].pages.Some? && p < |spaces[s].pages.value|
    requires BodyOrEmpty(spaces[s].pages.value[p]) != ""
    requires i < |PageChunks(clean, tokenize, BodyOrEmpty(spaces[s].pages.value[p]))|
    ensures var space := spaces[s];
            var page := space.pages.value[p];
            var j := Offset(SpaceFn(clean, tokenize), spaces, s) + Offset(PageFn(clean, tokenize, space), space.pages.value, p) + i;
            && j < |ProcessAllSpaces(clean, tokenize, spaces)|
            && ProcessAllSpaces(clean, tokenize, spaces)[j]
               == ChunkRecord(space.key, space.name, page.id, page.title, i,
                              PageChunks(clean, tokenize, BodyOrEmpty(page))[i], PageUrl(BaseUrl, page.id))
  {
    var space := spaces[s];
    var k := Offset(PageFn(clean, tokenize, space), space.pages.value, p) + i;
    ItemPosition(PageFn(clean, tokenize, space), space.pages.value, p, i);
    ItemPosition(SpaceFn(clean, tokenize), spaces, s, k);
  }

  /** A space whose page fetch failed contributes nothing, and processing
      carries on with the spaces after it. */
  lemma FailedSpaceSkipped(clean: string -> string, tokenize: string -> seq<string>, before: seq<Space>, space: Space, after: seq<Space>)
    requires space.pages.None?
    ensures ProcessAllSpaces(clean, tokenize, before + [space] + after)
         == ProcessAllSpaces(clean, tokenize, before) + ProcessAllSpaces(clean, tokenize, after)
  {
    FlatMapAppend(SpaceFn(clean, tokenize), before + [space], after);
    FlatMapAppend(SpaceFn(clean, tokenize), before, [space]);
    FlatMapOne(SpaceFn(clean, tokenize), space);
  }

  /** A page with a missing or empty body contributes nothing. */
  lemma EmptyPageSkipped(clean: string -> string, tokenize: string -> seq<string>, key: string, name: string,
                         before: seq<Page>, page: Page, after: seq<Page>)
    requires BodyOrEmpty(page) == ""
    ensures SpaceRecords(clean, tokenize, Space(key, name, Some(before + [page] + after)))
         == SpaceRecords(clean, tokenize, Space(key, name, Some(before + after)))
  {
    var f := PageFn(clean, tokenize, Space(key, name, Some(before + [page] + after)));
    var g := PageFn(clean, tokenize, Space(key, name, Some(before + after)));
    PageFnIgnoresPageList(clean, tokenize, key, name, Some(before + [page] + after), Some(before + after));
    FlatMapAppend(f, before + [page], after);
    FlatMapAppend(f, before, [page]);
    FlatMapOne(f, page);
    FlatMapAppend(g, before, after);
    FlatMapCongruent(f, g, before);
    FlatMapCongruent(f, g, after);
  }

  /** A page's records depend on its space's key and name only. */
  lemma PageFnIgnoresPageList(clean: string -> string, tokenize: string -> seq<string>, key: string, name: string,
                              pages1: Option<seq<Page>>, pages2: Option<seq<Page>>)
    ensures forall page :: PageFn(clean, tokenize, Space(key, name, pages1))(page)
                        == PageFn(clean, tokenize, Space(key, name, pages2))(page)
  {
  }

  /** Chunk count of one page: zero when it is skipped. */
  function PageCount(clean: string -> string, tokenize: string -> seq<string>, page: Page): nat {
    if BodyOrEmpty(page) == "" then 0 else |PageChunks(clean, tokenize, BodyOrEmpty(page))|
  }

  /** Chunk count of one space: zero when its fetch failed. */
  function SpaceCount(clean: string -> string, tokenize: string -> seq<string>, space: Space): nat {
    match space.pages
    case None => 0
    case Some(pages) => SumOf(page => PageCount(clean, tokenize, page), pages)
  }

  /** The number of records is the sum of the chunk counts of the pages
      that were fetched and not skipped. */
  lemma RecordCount(clean: string -> string, tokenize: string -> seq<string>, spaces: seq<Space>)
    ensures |ProcessAllSpaces(clean, tokenize, spaces)| == SumOf(space => SpaceCount(clean, tokenize, space), spaces)
  {
    forall k | 0 <= k < |spaces|
      ensures SpaceCount(clean, tokenize, spaces[k]) == |SpaceRecords(clean, tokenize, spaces[k])|
    {
      if spaces[k].pages.Some? {
        FlatMapLength(PageFn(clean, tokenize, spaces[k]), page => PageCount(clean, tokenize, page), spaces[k].pages.value);
      }
    }
    FlatMapLength(SpaceFn(clean, tokenize), space => SpaceCount(clean, tokenize, space), spaces);
  }
}
