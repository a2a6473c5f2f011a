/**
 * The keyword retriever (backend/rag/retriever.py): documents are cut into
 * stripped paragraphs, and a query ranks them by the Jaccard similarity of
 * lower-cased word sets, keeping the first `top_k` with a positive score.
 * The document directory is given as its contents; reading and writing
 * files is not modelled.
 */
module Retrieval {
  import opened Wrappers
  import opened Text
  import opened Ranking

  /** One entry of the chunk index. */
  datatype Chunk = Chunk(text: string, source: string, chunkId: string)

  /** A `.txt` file of the documents directory. */
  datatype TextFile = TextFile(stem: string, content: string)
  {
    function Name(): string { stem + ".txt" }
  }

  /** The documents directory: its `index.json`, if present, and its `.txt` files in scan order. */
  datatype Documents = Documents(index: Option<seq<Chunk>>, files: seq<TextFile>)

  /** `f"{stem}_{i}"`. */
  function ChunkId(stem: string, i: nat): string { stem + "_" + NatToString(i) }

  lemma ChunkIdInjective(stem: string, i: nat, j: nat)
    requires ChunkId(stem, i) == ChunkId(stem, j)
    ensures i == j
  {
    var k := |stem| + 1;
    assert NatToString(i) == ChunkId(stem, i)[k..];
    assert NatToString(j) == ChunkId(stem, j)[k..];
    NatToStringInjective(i, j);
  }

  /** The chunks `enumerate` makes of a document's paragraphs. */
  function ChunksOf(paragraphs: seq<string>, source: string, stem: string): (r: seq<Chunk>)
    ensures |r| == |paragraphs|
    ensures forall i :: 0 <= i < |r| ==> r[i] == Chunk(paragraphs[i], source, ChunkId(stem, i))
  {
    seq(|paragraphs|, i requires 0 <= i < |paragraphs| => Chunk(paragraphs[i], source, ChunkId(stem, i)))
  }

  lemma ChunksOfSnoc(paragraphs: seq<string>, i: nat, source: string, stem: string)
    requires i < |paragraphs|
    ensures ChunksOf(paragraphs[..i + 1], source, stem)
         == ChunksOf(paragraphs[..i], source, stem) + [Chunk(paragraphs[i], source, ChunkId(stem, i))]
  {
  }

  /** A document's chunks: its paragraphs, numbered. */
  function DocChunks(content: string, source: string, stem: string): seq<Chunk> {
    ChunksOf(Paragraphs(content), source, stem)
  }

  /**
   * A document's chunks: one per non-blank paragraph, stripped, all from
   * `source`, with ids distinct and numbered over the kept paragraphs only.
   */
  lemma DocChunksShape(content: string, source: string, stem: string)
    ensures var r := DocChunks(content, source, stem);
            |r| == |Paragraphs(content)|
            && (forall i :: 0 <= i < |r| ==> r[i].text == Paragraphs(content)[i] && IsStripped(r[i].text))
            && (forall i :: 0 <= i < |r| ==> r[i].source == source && r[i].chunkId == ChunkId(stem, i))
            && (forall i, j :: 0 <= i < j < |r| ==> r[i].chunkId != r[j].chunkId)
            && (!IsBlank(content) ==> |r| > 0)
  {
    var r := DocChunks(content, source, stem);
    forall i, j | 0 <= i < j < |r| ensures r[i].chunkId != r[j].chunkId {
      if r[i].chunkId == r[j].chunkId {
        ChunkIdInjective(stem, i, j);
      }
    }
    ParagraphsOfText(content);
  }

  /** The chunks of the `.txt` files, file after file. */
  function FileChunks(files: seq<TextFile>): seq<Chunk> {
    if files == [] then []
    else
      var f := files[|files| - 1];
      FileChunks(files[..|files| - 1]) + DocChunks(f.content, f.Name(), f.stem)
  }

  lemma FileChunksSnoc(files: seq<TextFile>, n: nat)
    requires n < |files|
    ensures FileChunks(files[..n + 1]) == FileChunks(files[..n]) + DocChunks(files[n].content, files[n].Name(), files[n].stem)
  {
    assert files[..n + 1][..n] == files[..n];
  }

  /** The index after loading: `index.json` as stored, or the `.txt` files chunked. */
  function Loaded(docs: Documents): seq<Chunk> {
    if docs.index.Some? then docs.index.value else FileChunks(docs.files)
  }

  /** Chunks loaded from text files are non-empty stripped paragraphs, each from one of the files. */
  lemma {:induction false} FileChunksShape(files: seq<TextFile>)
    ensures forall c :: c in FileChunks(files) ==> IsStripped(c.text)
    ensures forall c :: c in FileChunks(files) ==> exists f :: f in files && c.source == f.Name()
  {
    if files != [] {
      var init := files[..|files| - 1];
      var f := files[|files| - 1];
      FileChunksShape(init);
      DocChunksShape(f.content, f.Name(), f.stem);
      var d := DocChunks(f.content, f.Name(), f.stem);
      assert FileChunks(files) == FileChunks(init) + d;
      forall c | c in FileChunks(files) ensures IsStripped(c.text) && exists g :: g in files && c.source == g.Name() {
        if c in FileChunks(init) {
          var g :| g in init && c.source == g.Name();
          assert g in files;
        } else {
          assert c in d;
          assert f in files;
        }
      }
    }
  }

  /** A chunk with its query score. */
  datatype Scored = Scored(score: real, text: string)

  /** `scored_chunks.sort(key=lambda x: x[0])` compares scores only. */
  function ScoreKey(s: Scored): Key { Key(s.score, 0.0) }

  function ScoredChunks(query: string, chunks: seq<Chunk>): (r: seq<Scored>)
    ensures |r| == |chunks|
    ensures forall i :: 0 <= i < |r| ==> r[i] == Scored(WordSimilarity(query, chunks[i].text), chunks[i].text)
  {
    seq(|chunks|, i requires 0 <= i < |chunks| => Scored(WordSimilarity(query, chunks[i].text), chunks[i].text))
  }

  function Texts(s: seq<Scored>): (r: seq<string>)
    ensures |r| == |s| && forall i :: 0 <= i < |r| ==> r[i] == s[i].text
  {
    seq(|s|, i requires 0 <= i < |s| => s[i].text)
  }

  /** The ranking of all chunks for a query, best first, ties in index order. */
  function Ranked(query: string, chunks: seq<Chunk>): seq<Scored> {
    SortDesc(ScoredChunks(query, chunks), ScoreKey)
  }

  /** `retrieve`: the texts of the first `top_k` ranked chunks whose score is positive. */
  function Retrieved(query: string, chunks: seq<Chunk>, topK: int): (r: seq<string>)
    ensures chunks == [] ==> r == []
  {
    if chunks == [] then [] else Texts(Positive(Head(Ranked(query, chunks), topK), ScoreKey))
  }

  /**
   * For `top_k >= 0`, the result is exactly the first min(`top_k`, p) ranked
   * chunks, where the first p ranked chunks are the ones with a positive
   * score; the ranking keeps the index order of chunks with equal scores.
   */
  lemma RetrievedIsTopPositive(query: string, chunks: seq<Chunk>, topK: nat)
    ensures var ranked := Ranked(query, chunks);
            var p := |Positive(ranked, ScoreKey)|;
            p <= |ranked|
            && Retrieved(query, chunks, topK) == Texts(ranked[..Min(topK, p)])
            && (forall i :: 0 <= i < p ==> ranked[i].score > 0.0)
            && (forall i :: p <= i < |ranked| ==> ranked[i].score <= 0.0)
    ensures forall k :: WithKey(Ranked(query, chunks), ScoreKey, k) == WithKey(ScoredChunks(query, chunks), ScoreKey, k)
  {
    SortedTopPositive(ScoredChunks(query, chunks), ScoreKey, topK);
  }

  /** Every ranked entry carries the score of its own text, and comes from a chunk. */
  lemma RankingEntries(query: string, chunks: seq<Chunk>)
    ensures forall x :: x in Ranked(query, chunks) ==>
              x.score == WordSimilarity(query, x.text) && exists j :: 0 <= j < |chunks| && chunks[j].text == x.text
  {
    var scored := ScoredChunks(query, chunks);
    SortDescPermutes(scored, ScoreKey);
    forall x | x in Ranked(query, chunks)
      ensures x.score == WordSimilarity(query, x.text) && exists j :: 0 <= j < |chunks| && chunks[j].text == x.text
    {
      assert x in multiset(Ranked(query, chunks));
      assert x in scored;
      var j :| 0 <= j < |scored| && scored[j] == x;
      assert chunks[j].text == x.text;
    }
  }

  /**
   * Every returned text is a chunk's text that shares a word with the query,
   * and the texts come in non-increasing score order.
   */
  lemma RetrievedShape(query: string, chunks: seq<Chunk>, topK: int)
    ensures var r := Retrieved(query, chunks, topK);
            (forall i :: 0 <= i < |r| ==> WordSimilarity(query, r[i]) > 0.0
                                          && exists j :: 0 <= j < |chunks| && chunks[j].text == r[i])
            && (forall i, j :: 0 <= i < j < |r| ==> WordSimilarity(query, r[j]) <= WordSimilarity(query, r[i]))
  {
    if chunks != [] {
      var ranked := Ranked(query, chunks);
      SortDescSorted(ScoredChunks(query, chunks), ScoreKey);
      RankingEntries(query, chunks);
      var h := Head(ranked, topK);
      assert NonIncreasing(h, ScoreKey);
      PositiveIsPrefix(h, ScoreKey);
      var pos := Positive(h, ScoreKey);
      var r := Texts(pos);
      forall i | 0 <= i < |r|
        ensures pos[i] in ranked && pos[i].score > 0.0
      {
        assert pos[i] == h[i];
        assert h[i] == ranked[i];
      }
      forall i, j | 0 <= i < j < |r| ensures WordSimilarity(query, r[j]) <= WordSimilarity(query, r[i]) {
        assert pos[i] == h[i] && pos[j] == h[j];
        assert AtMost(ScoreKey(h[j]), ScoreKey(h[i]));
      }
    }
  }

  class SimpleRagRetriever {
    var chunks: seq<Chunk>

    /** Loads the index from `index.json`, or else chunks every `.txt` file. */
    constructor(docs: Documents)
      ensures chunks == Loaded(docs)
    {
      chunks := [];
      new;
      if docs.index.Some? {
        chunks := docs.index.value;
      } else {
        for f := 0 to |docs.files|
          invariant chunks == FileChunks(docs.files[..f])
        {
          var file := docs.files[f];
          FileChunksSnoc(docs.files, f);
          AppendParagraphs(file.content, file.Name(), file.stem);
        }
        assert docs.files[..|docs.files|] == docs.files;
      }
    }

    /** The `for i, para in enumerate(paragraphs)` loop appending chunks. */
    method AppendParagraphs(content: string, source: string, stem: string)
      modifies this
      ensures chunks == old(chunks) + DocChunks(content, source, stem)
    {
      var paragraphs := Paragraphs(content);
      var added: seq<Chunk> := [];
      for i := 0 to |paragraphs|
        invariant added == ChunksOf(paragraphs[..i], source, stem)
        invariant chunks == old(chunks)
      {
        ChunksOfSnoc(paragraphs, i, source, stem);
        added := added + [Chunk(paragraphs[i], source, ChunkId(stem, i))];
      }
      assert paragraphs[..|paragraphs|] == paragraphs;
      assert added == DocChunks(content, source, stem);
      chunks := chunks + added;
    }

    /** `add_document`: the document's chunks go after the existing ones, whose ids are `source` numbered. */
    method AddDocument(content: string, source: string)
      modifies this
      ensures chunks == old(chunks) + DocChunks(content, source, source)
    {
      AppendParagraphs(content, source, source);
    }

    /** `retrieve`. */
    method Retrieve(query: string, topK: int) returns (r: seq<string>)
      ensures r == Retrieved(query, chunks, topK)
    {
      if chunks == [] {
        return [];
      }
      var scored: seq<Scored> := [];
      for i := 0 to |chunks|
        invariant scored == ScoredChunks(query, chunks[..i])
      {
        scored := scored + [Scored(WordSimilarity(query, chunks[i].text), chunks[i].text)];
      }
      assert chunks[..|chunks|] == chunks;
      scored := SortDesc(scored, ScoreKey);
      r := Texts(Positive(Head(scored, topK), ScoreKey));
    }
  }
}
