# Confluence chunking and flattening, modelled in Dafny

The repository pulls pages from a Confluence wiki and turns them into chunk
records for semantic search. This model covers the deterministic core of that
process. There are four pieces:

- **The sliding-window chunkers** (`chunk_text`). Each one splits text into
  units, takes windows of `window` units at starts `0, stride, 2*stride, ...`
  below the unit count (where `stride = window - overlap`) and joins each
  window with single spaces. alt.py and run.py window over sentences; their
  two `chunk_text` functions are token-for-token identical, so one Dafny
  function models both. create_db.py and confluence_vector_search/indexer.py
  window over `text.split()`. create_db.py also drops empty chunks.
- **The build loops.** They flatten spaces, then pages, then chunks into
  records, and each chunk gets a per-page index that restarts at 0.
  - `process_all_spaces` (alt.py) skips failed spaces and pages with empty bodies.
  - `extract_chunks_from_confluence` (run.py) produces one record list.
  - `build_vector_db` (create_db.py) and `build_index` (indexer.py) produce two
    parallel lists, `texts` and `meta`, then embed every text into a flat index.
- **The search join** of create_db.py. It maps the ids that the index returns
  back to texts and metadata.
- **The Python builtins these rely on**, with Python's own semantics: `range`
  with a step (a zero step raises `ValueError`), slicing with negative bounds,
  indexing with negative indices, `" ".join`, and argument-less `str.split()`
  over the characters `str.isspace` accepts.

Modules: `Python` (builtins), `Windows` (window arithmetic), `Chunker`,
`Flatten` (generic flat-map with `Locate`, its inverse), `Confluence` (page
data, URL), `Corpus` (the parallel-list build shared by create_db.py and
indexer.py), `VectorDb` (create_db.py), `Indexer` (indexer.py), `RunBuild`
(run.py), `AltBuild` (alt.py).

The model's parameters stand in for the external calls:

| parameter | stands in for |
|---|---|
| `clean: string -> string` | `clean_html` (BeautifulSoup) |
| `tokenize: string -> seq<string>` | `sent_tokenize` (NLTK) |
| `embed: string -> V` | `get_embedding` (transformers) |

The flat L2 index is modelled as its list of vectors in insertion order, so
an id is a position in that list. `search` receives the id row that the index
returned.

Four behaviours of the code are easy to miss, and the model follows the code
in each:

- A configuration with `overlap >= window` is evidently meant to be invalid.
  The code only fails when `window == overlap`, because `range` raises `ValueError` on a zero
  step. A negative step silently yields no chunks.
- One might expect every build to skip a page with empty text. Only alt.py
  skips pages (those with an empty or missing body). run.py, create_db.py and
  indexer.py read `page["body"]["storage"]["value"]` directly, so a page without
  a body raises `KeyError` and abandons the whole build. Those pages are modelled
  as `Failure(KeyError)`.
- An empty corpus produces no searchable index. In the code,
  `embeddings.shape[1]` raises `IndexError` when there are no chunks, so the
  build fails (`Failure(IndexError)`).
- A padding id `-1` is not reported as an error. The code uses ids as
  Python indices without a check, so `-1` refers to the last chunk (see
  Findings).

## Model

| member | source | states |
|---|---|---|
| `Python.Range` | create_db.py:41 | `range(0, n, window - overlap)` raises ValueError exactly when the step is zero, and yields nothing for a negative step |
| `Python.RangeSeqAscending` | alt.py:31 | an ascending range holds `ceil((stop - start) / step)` values and its `k`-th value is `start + k * step` |
| `Python.Slice` | create_db.py:42 | for non-negative bounds, a Python slice is the sub-sequence between the bounds clamped to the length |
| `Python.JoinEmptyIff` | create_db.py:42-43 | a space-joined list is empty exactly when the list is empty or is one empty string |
| `Python.Split` | create_db.py:39 | every token of `str.split()` is non-empty and contains no whitespace |
| `Python.SplitEmptyIff` | create_db.py:39 | `split()` returns no tokens exactly when the text is empty or all whitespace |
| `Python.SplitJoin` | create_db.py:39-42 | splitting the space-join of tokens that contain no whitespace gives the tokens back |
| `Windows.StartBelowIff` | alt.py:31 | window `k` exists exactly when `k * stride < n`, that is when `k < ceil(n / stride)` |
| `Windows.Window` | run.py:28 | every window holds at most `window` units, and at least one when `window > 0` |
| `Windows.Coverage` | alt.py:31-32 | with `0 <= overlap < window`, every unit index below `n` lies in some window's range |
| `Windows.ConsecutiveOverlap` | run.py:27-28 | when window `k` is full, its last `overlap` units are the first `overlap` units of window `k + 1`, and exactly those indices lie in both |
| `Windows.TailKept` | alt.py:32-33 | the last window ends at `n`, so a short tail is kept as a chunk rather than dropped |
| `Chunker.ChunkUnits` | alt.py:28-34 | `chunk_text` fails with ValueError exactly when `window == overlap`, and a negative step yields `[]` |
| `Chunker.ChunkUnitsWindows` | run.py:24-30 | for `0 <= window` and `overlap < window`, there are `ceil(n / stride)` chunks, chunk `k` is the join of units `[k*stride, min(k*stride + window, n))`, and empty input yields `[]` |
| `Chunker.SixSentenceExample` | alt.py:31-33 | six sentences with window 5 and overlap 2 give `"A. B. C. D. E."` then `"D. E. F."` |
| `Chunker.KeepNonEmpty` | create_db.py:43-44 | the `if chunk` filter keeps only non-empty chunks, keeps every non-empty chunk as often as it occurs, and changes nothing when no chunk is empty |
| `Chunker.KeepNonEmptyAppend` | create_db.py:43-44 | filtering a concatenation is the concatenation of the filtered parts, so the kept chunks stay in their original order |
| `Chunker.KeepNonEmptyOne` | create_db.py:43-44 | a single chunk is kept exactly when it is non-empty |
| `Chunker.FilteredWordChunkText` | create_db.py:38-45 | create_db.py's `chunk_text` raises exactly when `max_words == overlap`, and every chunk it returns is non-empty |
| `Chunker.WordChunksResplit` | confluence_vector_search/indexer.py:25-27 | every word chunk is non-empty, holds 1 to `max_words` words, and splitting it again gives exactly the words of its window |
| `Chunker.WordChunksEmptyIff` | confluence_vector_search/indexer.py:26-27 | the word chunker returns `[]` exactly when the text is empty or whitespace only, or the step is negative |
| `Chunker.FilterChangesNothing` | create_db.py:41-44 | when `max_words >= 1`, create_db.py's and indexer.py's `chunk_text` agree on every text and overlap |
| `Chunker.FilterMattersForEmptyWindow` | confluence_vector_search/indexer.py:27 | with a zero-word window the two chunkers differ: indexer.py returns `[""]`, create_db.py returns `[]` |
| `Chunker.DefaultWordChunkCount` | create_db.py:38-41 | with the defaults 100/20 the step is 80, so a text of `n` words gives `ceil(n / 80)` chunks from either word chunker |
| `Flatten.ItemPosition` | run.py:61-76 | record `i` of item `p` lands at position `Offset(p) + i` of the flattened list |
| `Flatten.Locate` | run.py:61-76 | every flattened position comes from one item `p` and one index `i`, with position `Offset(p) + i` |
| `Flatten.LocateOrdered` | run.py:61-76 | flattened output is in item order, then in order within the item |
| `Confluence.PageUrlDeterminesPage` | run.py:73 | the page URL depends only on the page id, and different ids give different URLs |
| `Corpus.CollectChunks` | create_db.py:77-87 | the loop fails with KeyError exactly when some page has no storage body, and otherwise returns `all_text_chunks` and `metadata` of equal length whose position `j` holds the text and metadata of entry `j` of the page-by-page flattening |
| `Corpus.Build` | create_db.py:89-96 | the build fails with KeyError for a missing body or IndexError for zero chunks; otherwise vector `j` is the embedding of text `j` and texts and metadata stay aligned |
| `Corpus.EveryChunkEntered` | confluence_vector_search/indexer.py:57-59 | chunk `i` of page `p` is entry `Offset(p) + i` with `chunk_id` `i`: the chunk id restarts at 0 on every page and counts up by one |
| `Corpus.EntryCount` | confluence_vector_search/indexer.py:52-59 | the number of entries is the sum of the pages' chunk counts |
| `VectorDb.BuildVectorDb` | create_db.py:71-96 | every stored text is a non-empty chunk of 1 to 100 words, aligned with its metadata and its own embedding |
| `VectorDb.Search` | create_db.py:99-112 | as written, the results keep the order and length of the ids, and when the two lists have equal length result `j`'s text, title and url all come from the single position that `indices[0][j]` names as a Python index (counting from the end when negative) |
| `VectorDb.SearchHitsCoherent` | create_db.py:104-110 | against built lists, result `j`'s text, title and url all belong to the same chunk `i` of the same page `p` |
| `VectorDb.PaddingRepeatsLastChunk` | create_db.py:105-107 | as written, a padding id `-1` returns the last chunk a second time |
| `VectorDb.SearchHits` | create_db.py:104-110 | the corrected join drops negative ids, so every result comes from a real position |
| `VectorDb.SearchHitsCount` | create_db.py:102-112 | with `min(k, n)` real ids followed by padding, the corrected join returns exactly `min(k, n)` results: the as-written join of the real ids |
| `Indexer.BuildIndex` | confluence_vector_search/indexer.py:47-66 | `texts` and `meta` are position-aligned with the page-by-page entries, and vector `j` embeds text `j`; a missing body or an empty corpus raises |
| `Indexer.SameEntriesAsCreateDb` | confluence_vector_search/indexer.py:25-27 | indexer.py and create_db.py build identical texts and metadata from the same pages and the same base URL |
| `RunBuild.ExtractChunks` | run.py:57-76 | extraction fails with KeyError exactly when some page has no storage body, and otherwise returns the concatenation, in page order, of every page's records |
| `RunBuild.RecordOrigin` | run.py:61-74 | record `j` is chunk `i` of page `p`, with that page's id and title, `chunk_index` `i`, and a URL built from the page id |
| `RunBuild.RecordsInPageOrder` | run.py:61-76 | records follow page order, then chunk order |
| `RunBuild.EveryChunkRecorded` | run.py:67-74 | every chunk of every page is recorded at `Offset(p) + i` with `chunk_index` `i` |
| `RunBuild.RecordCount` | run.py:61-76 | the number of records is the sum of `len(chunk_text(text))` over pages |
| `AltBuild.RecordOrigin` | alt.py:91-109 | record `j` comes from a fetched space and a page of it with a non-empty body; it carries that space's key and name, that page's id, title and URL, and its chunk index |
| `AltBuild.RecordsInOrder` | alt.py:80-110 | records follow space order, then page order, then chunk order |
| `AltBuild.EveryChunkRecorded` | alt.py:100-109 | every chunk of every processed page is recorded, with `chunk_index` equal to its position in the page's chunks |
| `AltBuild.FailedSpaceSkipped` | alt.py:85-89 | a space whose page fetch fails contributes no records, and the spaces after it are still processed |
| `AltBuild.EmptyPageSkipped` | alt.py:95-97 | a page with an empty or missing body contributes no records |
| `AltBuild.RecordCount` | alt.py:75-111 | the number of records is the sum of chunk counts over the pages that were fetched and not skipped |

## Findings

| source | as written | input that shows it | evidently intended | confidence | as-written member | corrected member |
|---|---|---|---|---|---|---|
| create_db.py:105-110 | each id in `indices[0]` is used directly as `chunks[i]`. The flat index pads the row with `-1` when `k` exceeds the number of vectors, and Python reads `-1` as the last element. | a two-chunk corpus searched with the default-style `k = 3` returns ids `[0, 1, -1]` and the results `a, b, b` | return only the `min(k, n)` real neighbours | medium: relies on the index padding with `-1`; not executed | `VectorDb.PaddingRepeatsLastChunk` | `VectorDb.SearchHitsCount` |

## Left out

- HTTP fetching and pagination (`fetch_all_spaces`, `fetch_pages_for_space`, `fetch_pages`, `fetch_all_pages`, authentication, `time.sleep`) are network I/O. Pages are given as input. In alt.py, a space whose fetch raised holds `None`.
- `clean_html`, `sent_tokenize` and `get_embedding` call foreign libraries, so they are function parameters. The embedding's floating-point values and its truncation are not modelled.
- The FAISS `IndexFlatL2` L2 distances and the `search` ranking use float32 arithmetic in a foreign library. The index is the vector list, and `search` takes the returned id row as input. The query embedding and the `distances` array are not modelled.
- `VectorDb.Search`: ids outside `[-len, len)` raise IndexError in Python. That error is excluded by a precondition of `VectorDb.Search`, not modelled as a value.
- The keys `"title"`, `"id"`, `"key"` and `"name"` are assumed present on every page and space object. Only a missing body is modelled.
- The `config` module that indexer.py imports is not part of this model. Its base URL is a parameter of `Indexer.BuildIndex`.
- confluence_vector_search/app.py duplicates the create_db.py join, which is already modelled. The Flask route is left out.
- `save_chunks_to_json`, `print`, `tqdm` progress bars and the `input()` loop are output and interactive I/O.
- The float32 conversion and `reshape` calls in the build and in `search` are numpy layout only.
- `AltBuild.ProcessAllSpaces` and `Corpus.Entries` are stated as flattenings, and alt.py's loop is not written as a Dafny loop because it only appends to a single list. run.py's loop is modelled page by page by `RunBuild.ExtractChunks`, which fails at the first page without a body and whose success value is proved equal to the flattening. The parallel-list loop shared by create_db.py and indexer.py is written out, as `Corpus.CollectChunks`.
