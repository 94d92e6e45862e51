/** The `chunk_text` functions.

    alt.py and run.py window over the sentences `sent_tokenize` returns;
    confluence_vector_search/indexer.py windows over `text.split()`; create_db.py
    does the same and additionally drops empty chunks (`if chunk`). All of
    them iterate `range(0, len(units), window - overlap)` and join the slice
    `units[i:i + window]` with single spaces. */
module Chunker {
  import opened Python
  import opened Windows

  /** One joined slice per start: the body of the `for i in range(...)` loop
      (or of the list comprehension). */
  function JoinedSlices(units: seq<string>, starts: seq<int>, size: int): (chunks: seq<string>)
    ensures |chunks| == |starts|
  {
    seq(|starts|, k requires 0 <= k < |starts| => Join(" ", Slice(units, starts[k], starts[k] + size)))
  }

  /** `chunk_text` of alt.py and run.py applied to the sentence list, and of
      indexer.py applied to the word list, for arbitrary integer parameters.
      A zero step makes `range` raise; a negative step yields no chunks. */
  function ChunkUnits(units: seq<string>, size: int, overlap: int): (r: Result<seq<string>>)
    ensures r.Failure? <==> size == overlap
    ensures r.Failure? ==> r.error == ValueError
    ensures size < overlap ==> r == Success([])
  {
    var starts :- Range(0, |units|, size - overlap);
    Success(JoinedSlices(units, starts, size))
  }

  /** For `0 <= size` and `overlap < size` the chunk list is the join of
      every window: there are `ceil(n / stride)` chunks, and chunk `k` joins
      units `[k * stride, min(k * stride + size, n))`. An empty unit list
      yields no chunks. */
  lemma ChunkUnitsWindows(units: seq<string>, size: nat, overlap: int)
    requires overlap < size
    ensures ChunkUnits(units, size, overlap).Success?
    ensures |ChunkUnits(units, size, overlap).value| == ChunkCount(|units|, Stride(size, overlap))
    ensures |units| == 0 ==> ChunkUnits(units, size, overlap).value == []
    ensures forall k :: 0 <= k < |ChunkUnits(units, size, overlap).value| ==>
              ChunkUnits(units, size, overlap).value[k] == Join(" ", Window(units, size, Stride(size, overlap), k))
  {
    var stride := Stride(size, overlap);
    var n := |units|;
    RangeSeqAscending(0, n, stride);
    var starts := RangeSeq(0, n, stride);
    StartBelowIff(n, stride, 0);
    if n == 0 {
      assert ChunkCount(n, stride) == 0;
    }
    assert |starts| == ChunkCount(n, stride);
    var chunks := ChunkUnits(units, size, overlap).value;
    assert chunks == JoinedSlices(units, starts, size);
    forall k | 0 <= k < |chunks|
      ensures chunks[k] == Join(" ", Window(units, size, stride, k))
    {
      assert starts[k] == Start(k, stride);
      StartBelowIff(n, stride, k);
    }
  }

  lemma JoinCons(first: string, rest: seq<string>)
    requires |rest| > 0
    ensures Join(" ", [first] + rest) == first + " " + Join(" ", rest)
  {
    assert ([first] + rest)[1..] == rest;
  }

  /** The worked example: six sentences, window 5 and overlap 2, give the
      window starting at sentence 0 and the tail window starting at 3. */
  lemma SixSentenceExample()
    ensures ChunkUnits(["A.", "B.", "C.", "D.", "E.", "F."], 5, 2)
         == Success(["A. B. C. D. E.", "D. E. F."])
  {
    var units := ["A.", "B.", "C.", "D.", "E.", "F."];
    ChunkUnitsWindows(units, 5, 2);
    DivIsUnique(8, 3, 2);
    var chunks := ChunkUnits(units, 5, 2).value;
    assert Window(units, 5, 3, 0) == ["A.", "B.", "C.", "D.", "E."];
    assert Window(units, 5, 3, 1) == ["D.", "E.", "F."];
    JoinFirstWindow();
    JoinTailWindow();
    assert chunks == ["A. B. C. D. E.", "D. E. F."];
  }

  lemma JoinFirstWindow()
    ensures Join(" ", ["A.", "B.", "C.", "D.", "E."]) == "A. B. C. D. E."
  {
    assert ["D.", "E."] == ["D."] + ["E."];
    JoinCons("D.", ["E."]);
    assert ["C.", "D.", "E."] == ["C."] + ["D.", "E."];
    JoinCons("C.", ["D.", "E."]);
    assert ["B.", "C.", "D.", "E."] == ["B."] + ["C.", "D.", "E."];
    JoinCons("B.", ["C.", "D.", "E."]);
    assert ["A.", "B.", "C.", "D.", "E."] == ["A."] + ["B.", "C.", "D.", "E."];
    JoinCons("A.", ["B.", "C.", "D.", "E."]);
  }

  lemma JoinTailWindow()
    ensures Join(" ", ["D.", "E.", "F."]) == "D. E. F."
  {
    assert ["E.", "F."] == ["E."] + ["F."];
    JoinCons("E.", ["F."]);
    assert ["D.", "E.", "F."] == ["D."] + ["E.", "F."];
    JoinCons("D.", ["E.", "F."]);
  }

  /** `chunk_text` of alt.py and run.py with its defaults (5 sentences,
      overlap 2), which never raise. */
  function DefaultSentenceChunks(sentences: seq<string>): seq<string> {
    ChunkUnits(sentences, 5, 2).value
  }

  /** `chunk_text(clean_html(html))` of alt.py and run.py with the
      defaults; `clean_html` and `sent_tokenize` are the parameters `clean`
      and `tokenize`. */
  function PageChunks(clean: string -> string, tokenize: string -> seq<string>, html: string): seq<string> {
    DefaultSentenceChunks(tokenize(clean(html)))
  }

  // ---------------------------------------------------------------- word windows

  /** `chunk_text` of indexer.py: the window join over `text.split()`. */
  function WordChunkText(text: string, maxWords: int, overlap: int): Result<seq<string>> {
    ChunkUnits(Split(text), maxWords, overlap)
  }

  /** The `if chunk:` filter of create_db.py. */
  function KeepNonEmpty(chunks: seq<string>): (kept: seq<string>)
    ensures |kept| <= |chunks|
    ensures forall k :: 0 <= k < |kept| ==> kept[k] != ""
    ensures (forall k :: 0 <= k < |chunks| ==> chunks[k] != "") ==> kept == chunks
    ensures forall c :: c != "" ==> multiset(kept)[c] == multiset(chunks)[c]
  {
    if |chunks| == 0 then []
    else
      assert chunks == [chunks[0]] + chunks[1..];
      if chunks[0] == "" then KeepNonEmpty(chunks[1..])
      else [chunks[0]] + KeepNonEmpty(chunks[1..])
  }

  /** The filter works chunk by chunk: filtering a concatenation is the
      concatenation of the filtered parts, so the kept chunks stay in their
      original order. */
  lemma {:induction false} KeepNonEmptyAppend(a: seq<string>, b: seq<string>)
    ensures KeepNonEmpty(a + b) == KeepNonEmpty(a) + KeepNonEmpty(b)
    decreases |a|
  {
    if |a| > 0 {
      assert (a + b)[0] == a[0];
      assert (a + b)[1..] == a[1..] + b;
      KeepNonEmptyAppend(a[1..], b);
    } else {
      assert a + b == b;
    }
  }

  /** A single chunk is kept exactly when it is non-empty. */
  lemma KeepNonEmptyOne(c: string)
    ensures KeepNonEmpty([c]) == if c == "" then [] else [c]
  {
    assert [c][1..] == [];
  }

  /** `chunk_text` of create_db.py: the window join over `text.split()`,
      keeping only non-empty chunks. */
  function FilteredWordChunkText(text: string, maxWords: int, overlap: int): (r: Result<seq<string>>)
    ensures r.Failure? <==> maxWords == overlap
    ensures r.Success? ==> forall k :: 0 <= k < |r.value| ==> r.value[k] != ""
  {
    var words := Split(text);
    var starts :- Range(0, |words|, maxWords - overlap);
    Success(KeepNonEmpty(JoinedSlices(words, starts, maxWords)))
  }

  /** Every word chunk is non-empty, holds between 1 and `maxWords` words,
      and splitting it again gives back exactly the words of its window. */
  lemma WordChunksResplit(text: string, maxWords: nat, overlap: int)
    requires 0 < maxWords && overlap < maxWords
    ensures WordChunkText(text, maxWords, overlap).Success?
    ensures |WordChunkText(text, maxWords, overlap).value| == ChunkCount(|Split(text)|, Stride(maxWords, overlap))
    ensures forall k :: 0 <= k < |WordChunkText(text, maxWords, overlap).value| ==>
              && WordChunkText(text, maxWords, overlap).value[k] != ""
              && Split(WordChunkText(text, maxWords, overlap).value[k]) == Window(Split(text), maxWords, Stride(maxWords, overlap), k)
              && 1 <= |Split(WordChunkText(text, maxWords, overlap).value[k])| <= maxWords
  {
    var words := Split(text);
    var stride := Stride(maxWords, overlap);
    ChunkUnitsWindows(words, maxWords, overlap);
    var chunks := WordChunkText(text, maxWords, overlap).value;
    forall k | 0 <= k < |chunks|
      ensures chunks[k] != ""
      ensures Split(chunks[k]) == Window(words, maxWords, stride, k)
    {
      var w := Window(words, maxWords, stride, k);
      StartBelowIff(|words|, stride, k);
      assert forall i :: 0 <= i < |w| ==> w[i] == words[Start(k, stride) + i];
      SplitJoin(w);
      JoinEmptyIff(w);
    }
  }

  /** Empty or whitespace-only text yields no chunks; any other text yields
      at least one, unless the step is negative. */
  lemma WordChunksEmptyIff(text: string, maxWords: int, overlap: int)
    requires maxWords != overlap
    ensures WordChunkText(text, maxWords, overlap) == Success([]) <==> maxWords < overlap || AllSpace(text)
  {
    SplitEmptyIff(text);
    if overlap < maxWords {
      var words := Split(text);
      var stride := Stride(maxWords, overlap);
      if maxWords >= 0 {
        ChunkUnitsWindows(words, maxWords, overlap);
      } else {
        RangeSeqAscending(0, |words|, stride);
      }
      StartBelowIff(|words|, stride, 0);
    }
  }

  /** The chunkers of create_db.py and indexer.py agree on every input whose
      window holds at least one word: no chunk is ever empty, so the
      `if chunk:` filter never removes anything. */
  lemma FilterChangesNothing(text: string, maxWords: int, overlap: int)
    requires 1 <= maxWords
    ensures FilteredWordChunkText(text, maxWords, overlap) == WordChunkText(text, maxWords, overlap)
  {
    if overlap < maxWords {
      WordChunksResplit(text, maxWords, overlap);
    }
  }

  /** A zero-word window is where the two chunkers part: indexer.py returns
      an empty chunk for every start, create_db.py filters it away. */
  lemma FilterMattersForEmptyWindow()
    ensures WordChunkText("a", 0, -1) == Success([""])
    ensures FilteredWordChunkText("a", 0, -1) == Success([])
  {
    assert Split("a") == ["a"] by {
      SplitWordThenSpace("a", "");
      assert "a" + "" == "a";
    }
    assert RangeSeq(0, 1, 1) == [0];
    assert Slice(["a"], 0, 0) == [];
    assert JoinedSlices(["a"], [0], 0) == [""];
  }

  /** With the defaults of 100 words and overlap 20 the step is 80, so a text
      of `n` words yields `ceil(n / 80)` chunks from either word chunker. */
  lemma DefaultWordChunkCount(text: string)
    ensures FilteredWordChunkText(text, 100, 20) == WordChunkText(text, 100, 20)
    ensures |WordChunkText(text, 100, 20).value| == (|Split(text)| + 79) / 80
  {
    FilterChangesNothing(text, 100, 20);
    WordChunksResplit(text, 100, 20);
  }
}
