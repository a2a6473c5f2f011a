/**
 * The chunker of the vector retriever (`_chunk_text` and the batch built by
 * `add_document` in backend/rag/vector_retriever.py). Paragraphs are packed
 * into chunks of about `chunk_size` words; a full chunk is flushed and the
 * next one starts with the last `chunk_overlap` words of the previous
 * paragraph; a paragraph longer than `chunk_size` is cut into word windows.
 * The embedding model and the vector collection are not modelled: whether
 * the store is available and accepts a batch are given.
 */
module VectorRetrieval {
  import opened Wrappers
  import opened Text
  import Retrieval

  /** What `range(0, n, 0)` raises. */
  const RangeError: string := "range() arg 3 must not be zero"

  /** `s[-n:]` for `n > 0`: the last `n` elements, or all of them. */
  function LastN<T>(s: seq<T>, n: nat): (r: seq<T>)
    ensures |r| == Min(n, |s|)
    ensures r == s[|s| - |r|..]
  {
    if n >= |s| then s else s[|s| - n..]
  }

  /** Words in a list of paragraphs. */
  function WordCount(ps: seq<string>): nat {
    if ps == [] then 0 else WordCount(ps[..|ps| - 1]) + |Words(ps[|ps| - 1])|
  }

  /** Joining with a space neither adds nor loses words. */
  lemma {:induction false} WordsOfSpaceJoin(ps: seq<string>)
    ensures |Words(Join(" ", ps))| == WordCount(ps)
    decreases |ps|
  {
    if |ps| == 1 {
      assert ps[..0] == [];
    } else if |ps| > 1 {
      var init := ps[..|ps| - 1];
      var p := ps[|ps| - 1];
      assert ps == init + [p];
      JoinSnoc(" ", init, p);
      WordsAroundSpace(Join(" ", init), ' ', p);
      assert Join(" ", init) + " " + p == Join(" ", init) + [' '] + p;
      WordsOfSpaceJoin(init);
    }
  }

  lemma WordCountSnoc(ps: seq<string>, p: string)
    ensures WordCount(ps + [p]) == WordCount(ps) + |Words(p)|
  {
    assert (ps + [p])[..|ps|] == ps;
  }

  // ---------------------------------------------------------------- windows

  /** The word windows `words[i:i + size]` for `i` in `range(start, len(words), step)`. */
  function Slices(words: seq<string>, size: nat, step: nat, start: nat): (r: seq<seq<string>>)
    requires step > 0
    ensures forall k :: 0 <= k < |r| ==> |r[k]| <= size
    ensures start < |words| ==> |r| > 0 && r[0] == words[start..Min(start + size, |words|)]
    decreases |words| - start
  {
    if start >= |words| then []
    else [words[start..Min(start + size, |words|)]] + Slices(words, size, step, start + step)
  }

  /** Where window `k` starts. */
  function WindowStart(start: nat, step: nat, k: nat): nat { start + k * step }

  /** Word index `j` lies inside one of the windows. */
  predicate Covered(r: seq<seq<string>>, start: nat, step: nat, j: nat) {
    exists k :: 0 <= k < |r| && WindowStart(start, step, k) <= j < WindowStart(start, step, k) + |r[k]|
  }

  /** Window `k` is `words[i:i + size]` for the `k`-th start `i` of the range. */
  lemma {:induction false} SlicesAt(words: seq<string>, size: nat, step: nat, start: nat)
    requires step > 0
    ensures var r := Slices(words, size, step, start);
            forall k :: 0 <= k < |r| ==>
              WindowStart(start, step, k) < |words|
              && r[k] == words[WindowStart(start, step, k)..Min(WindowStart(start, step, k) + size, |words|)]
    decreases |words| - start
  {
    var r := Slices(words, size, step, start);
    if start < |words| {
      SlicesAt(words, size, step, start + step);
      var rest := Slices(words, size, step, start + step);
      assert r == [r[0]] + rest;
      forall k | 0 < k < |r|
        ensures WindowStart(start, step, k) < |words|
        ensures r[k] == words[WindowStart(start, step, k)..Min(WindowStart(start, step, k) + size, |words|)]
      {
        assert r[k] == rest[k - 1];
        assert WindowStart(start, step, k) == WindowStart(start + step, step, k - 1);
      }
    }
  }

  /** When windows are no shorter than the step, every word from `start` on lies in some window. */
  lemma {:induction false} SlicesCover(words: seq<string>, size: nat, step: nat, start: nat)
    requires 0 < step <= size
    ensures forall j: nat :: start <= j < |words| ==> Covered(Slices(words, size, step, start), start, step, j)
    decreases |words| - start
  {
    var r := Slices(words, size, step, start);
    if start < |words| {
      SlicesCover(words, size, step, start + step);
      var rest := Slices(words, size, step, start + step);
      assert r == [r[0]] + rest;
      forall j: nat | start <= j < |words| ensures Covered(r, start, step, j) {
        if j < Min(start + size, |words|) {
          assert WindowStart(start, step, 0) <= j < WindowStart(start, step, 0) + |r[0]|;
        } else {
          CoveredCons(r[0], rest, start, step, j);
        }
      }
    }
  }

  /** A word covered by the later windows is covered once the first window is put in front. */
  lemma CoveredCons(w: seq<string>, rest: seq<seq<string>>, start: nat, step: nat, j: nat)
    requires Covered(rest, start + step, step, j)
    ensures Covered([w] + rest, start, step, j)
  {
    var k :| 0 <= k < |rest| && WindowStart(start + step, step, k) <= j < WindowStart(start + step, step, k) + |rest[k]|;
    assert WindowStart(start, step, k + 1) == WindowStart(start + step, step, k);
    assert ([w] + rest)[k + 1] == rest[k];
  }

  function JoinEach(s: seq<seq<string>>): (r: seq<string>)
    ensures |r| == |s| && forall k :: 0 <= k < |r| ==> r[k] == Join(" ", s[k])
  {
    if s == [] then [] else [Join(" ", s[0])] + JoinEach(s[1..])
  }

  /** The window loop: each window joined with spaces, appended in order. */
  method AppendWindows(chunks: seq<string>, words: seq<string>, size: nat, step: nat) returns (r: seq<string>)
    requires step > 0
    ensures r == chunks + JoinEach(Slices(words, size, step, 0))
  {
    r := chunks;
    var i := 0;
    while i < |words|
      invariant r + JoinEach(Slices(words, size, step, i)) == chunks + JoinEach(Slices(words, size, step, 0))
      decreases |words| - i
    {
      r := r + [Join(" ", words[i..Min(i + size, |words|)])];
      i := i + step;
    }
  }

  /** A window of real words, joined with spaces, has as many words as the window. */
  lemma WindowWords(words: seq<string>, size: nat, step: nat)
    requires step > 0
    requires forall i :: 0 <= i < |words| ==> IsWord(words[i])
    ensures forall k :: 0 <= k < |Slices(words, size, step, 0)| ==>
              |Words(JoinEach(Slices(words, size, step, 0))[k])| <= size
  {
    var sl := Slices(words, size, step, 0);
    forall k | 0 <= k < |sl| ensures |Words(Join(" ", sl[k]))| <= size {
      forall i | 0 <= i < |sl[k]| ensures IsWord(sl[k][i]) {
        SliceOfWords(words, size, step, 0, k, i);
      }
      WordsOfJoinedWords(sl[k]);
    }
  }

  lemma {:induction false} SliceOfWords(words: seq<string>, size: nat, step: nat, start: nat, k: nat, i: nat)
    requires step > 0
    requires forall j :: 0 <= j < |words| ==> IsWord(words[j])
    requires k < |Slices(words, size, step, start)| && i < |Slices(words, size, step, start)[k]|
    ensures IsWord(Slices(words, size, step, start)[k][i])
    decreases |words| - start
  {
    if k > 0 {
      SliceOfWords(words, size, step, start + step, k - 1, i);
    }
  }

  // ---------------------------------------------------------------- paragraph packing

  /** The loop state: finished chunks, the paragraphs of the chunk being filled, and its word count. */
  datatype Acc = Acc(chunks: seq<string>, current: seq<string>, length: int)

  /**
   * The flush before a paragraph of `paraLength` words: when it would not
   * fit and something is accumulated, the accumulated paragraphs become a
   * chunk and the new chunk starts with the last `overlap` words of the last
   * of them.
   */
  function Flush(acc: Acc, paraLength: nat, size: nat, overlap: nat): (a: Acc)
    ensures !(acc.length + paraLength > size && acc.current != []) ==> a == acc
    ensures acc.length + paraLength > size && acc.current != [] ==>
              a.chunks == acc.chunks + [Join(" ", acc.current)] && a.length <= overlap
  {
    if acc.length + paraLength > size && acc.current != [] then
      var chunks := acc.chunks + [Join(" ", acc.current)];
      if overlap > 0 then
        var overlapWords := LastN(Words(acc.current[|acc.current| - 1]), overlap);
        Acc(chunks, if overlapWords != [] then [Join(" ", overlapWords)] else [], |overlapWords|)
      else
        Acc(chunks, [], 0)
    else acc
  }

  /** One iteration of the paragraph loop; the window range fails when its step is zero. */
  function Step(acc: Acc, para: string, size: nat, overlap: nat): (r: Result<Acc>)
    ensures r.Err? <==> |Words(para)| > size && size == overlap
  {
    var paraLength := |Words(para)|;
    var a := Flush(acc, paraLength, size, overlap);
    if paraLength > size then
      var step := size - overlap;
      if step == 0 then Err(RangeError)
      else if step < 0 then Ok(a)
      else Ok(a.(chunks := a.chunks + JoinEach(Slices(Words(para), size, step, 0))))
    else
      Ok(a.(current := a.current + [para], length := a.length + paraLength))
  }

  /** The paragraph loop over a prefix of the paragraphs. */
  function FoldAll(paras: seq<string>, size: nat, overlap: nat): Result<Acc> {
    if paras == [] then Ok(Acc([], [], 0))
    else
      match FoldAll(paras[..|paras| - 1], size, overlap)
      case Err(m) => Err(m)
      case Ok(a) => Step(a, paras[|paras| - 1], size, overlap)
  }

  /** The chunks after the loop: the finished ones and, when non-empty, the one being filled. */
  function Finish(acc: Acc): seq<string> {
    acc.chunks + (if acc.current != [] then [Join(" ", acc.current)] else [])
  }

  /** The chunks of a non-blank text, given its paragraphs; the text itself when none is produced. */
  function Packed(paras: seq<string>, text: string, size: nat, overlap: nat): (r: Result<seq<string>>)
    ensures r.Ok? ==> |r.value| > 0
  {
    match FoldAll(paras, size, overlap)
    case Err(m) => Err(m)
    case Ok(a) => var cs := Finish(a); Ok(if cs == [] then [text] else cs)
  }

  /** `_chunk_text`. */
  function Chunked(text: string, size: nat, overlap: nat): (r: Result<seq<string>>)
    ensures IsBlank(text) ==> r == Ok([])
    ensures !IsBlank(text) && r.Ok? ==> |r.value| > 0
  {
    if IsBlank(text) then Ok([]) else Packed(Paragraphs(text), text, size, overlap)
  }

  /** An error stops the loop for good. */
  lemma {:induction false} FoldAllErr(paras: seq<string>, k: nat, size: nat, overlap: nat)
    requires k <= |paras| && FoldAll(paras[..k], size, overlap).Err?
    ensures FoldAll(paras, size, overlap) == FoldAll(paras[..k], size, overlap)
    decreases |paras| - k
  {
    if k < |paras| {
      assert paras[..k + 1][..k] == paras[..k];
      FoldAllErr(paras, k + 1, size, overlap);
    } else {
      assert paras[..k] == paras;
    }
  }

  /** The loop fails only when the window step is zero. */
  lemma {:induction false} FoldAllErrStep(paras: seq<string>, size: nat, overlap: nat)
    ensures FoldAll(paras, size, overlap).Err? ==> size == overlap
    decreases |paras|
  {
    if paras != [] {
      FoldAllErrStep(paras[..|paras| - 1], size, overlap);
    }
  }

  /**
   * The state the loop keeps: the recorded length is the word count of the
   * paragraphs being accumulated, and neither it nor any finished chunk
   * exceeds `size + overlap` words.
   */
  predicate Bounded(acc: Acc, size: nat, overlap: nat) {
    WordCount(acc.current) == acc.length && acc.length <= size + overlap
    && forall i :: 0 <= i < |acc.chunks| ==> |Words(acc.chunks[i])| <= size + overlap
  }

  lemma FlushBounded(acc: Acc, paraLength: nat, size: nat, overlap: nat)
    requires Bounded(acc, size, overlap)
    ensures Bounded(Flush(acc, paraLength, size, overlap), size, overlap)
  {
    if acc.length + paraLength > size && acc.current != [] {
      WordsOfSpaceJoin(acc.current);
      if overlap > 0 {
        var lastWords := Words(acc.current[|acc.current| - 1]);
        var overlapWords := LastN(lastWords, overlap);
        if overlapWords != [] {
          WordsAreWords(acc.current[|acc.current| - 1]);
          assert forall i :: 0 <= i < |overlapWords| ==> overlapWords[i] == lastWords[|lastWords| - |overlapWords| + i];
          WordsOfJoinedWords(overlapWords);
          assert WordCount([Join(" ", overlapWords)]) == |Words(Join(" ", overlapWords))| by {
            assert [Join(" ", overlapWords)][..0] == [];
          }
        }
      }
    }
  }

  lemma StepBounded(acc: Acc, para: string, size: nat, overlap: nat)
    requires Bounded(acc, size, overlap) && Step(acc, para, size, overlap).Ok?
    ensures Bounded(Step(acc, para, size, overlap).value, size, overlap)
  {
    var paraLength := |Words(para)|;
    var a := Flush(acc, paraLength, size, overlap);
    FlushBounded(acc, paraLength, size, overlap);
    if paraLength > size {
      var step := size - overlap;
      if step > 0 {
        WordsAreWords(para);
        WindowWords(Words(para), size, step);
        var w := JoinEach(Slices(Words(para), size, step, 0));
        var cs := a.chunks + w;
        forall i | 0 <= i < |cs| ensures |Words(cs[i])| <= size + overlap {
          if i >= |a.chunks| {
            assert cs[i] == w[i - |a.chunks|];
            assert |Words(w[i - |a.chunks|])| <= size;
          } else {
            assert Bounded(a, size, overlap);
            assert cs[i] == a.chunks[i];
          }
        }
      }
    } else {
      WordCountSnoc(a.current, para);
      if acc.current == [] {
        assert acc.length == 0;
      }
    }
  }

  lemma {:induction false} FoldAllBounded(paras: seq<string>, size: nat, overlap: nat)
    requires FoldAll(paras, size, overlap).Ok?
    ensures Bounded(FoldAll(paras, size, overlap).value, size, overlap)
    decreases |paras|
  {
    if paras != [] {
      var init := paras[..|paras| - 1];
      FoldAllBounded(init, size, overlap);
      StepBounded(FoldAll(init, size, overlap).value, paras[|paras| - 1], size, overlap);
    }
  }

  /** Packing paragraphs yields the fallback text or chunks of at most `size + overlap` words. */
  lemma PackedWordBound(paras: seq<string>, text: string, size: nat, overlap: nat)
    requires Packed(paras, text, size, overlap).Ok?
    ensures var r := Packed(paras, text, size, overlap).value;
            r == [text] || forall i :: 0 <= i < |r| ==> |Words(r[i])| <= size + overlap
  {
    FoldAllBounded(paras, size, overlap);
    var a := FoldAll(paras, size, overlap).value;
    var cs := Finish(a);
    forall i | 0 <= i < |cs| ensures |Words(cs[i])| <= size + overlap {
      if i < |a.chunks| {
        assert cs[i] == a.chunks[i];
      } else {
        assert a.current != [] && cs[i] == Join(" ", a.current);
        WordsOfSpaceJoin(a.current);
      }
    }
  }

  /**
   * Unless the whole text is returned as the fallback, no chunk has more
   * than `chunk_size + chunk_overlap` words.
   */
  lemma ChunkWordBound(text: string, size: nat, overlap: nat)
    requires Chunked(text, size, overlap).Ok?
    ensures var r := Chunked(text, size, overlap).value;
            r == [text] || forall i :: 0 <= i < |r| ==> |Words(r[i])| <= size + overlap
  {
    if !IsBlank(text) {
      PackedWordBound(Paragraphs(text), text, size, overlap);
    }
  }

  /** The chunker fails exactly when some paragraph is longer than `chunk_size` and the window step is zero. */
  lemma ChunkedErr(text: string, size: nat, overlap: nat)
    ensures Chunked(text, size, overlap).Err? ==> size == overlap
  {
    if !IsBlank(text) {
      FoldAllErrStep(Paragraphs(text), size, overlap);
    }
  }

  lemma {:induction false} FoldAllFits(paras: seq<string>, size: nat, overlap: nat)
    requires WordCount(paras) <= size
    ensures FoldAll(paras, size, overlap) == Ok(Acc([], paras, WordCount(paras)))
    decreases |paras|
  {
    if paras != [] {
      var init := paras[..|paras| - 1];
      FoldAllFits(init, size, overlap);
      assert init + [paras[|paras| - 1]] == paras;
    }
  }

  /** A text of at most `chunk_size` words is one chunk: its paragraphs joined with single spaces. */
  lemma SmallTextOneChunk(text: string, size: nat, overlap: nat)
    requires !IsBlank(text) && WordCount(Paragraphs(text)) <= size
    ensures Chunked(text, size, overlap) == Ok([Join(" ", Paragraphs(text))])
  {
    ParagraphsOfText(text);
    PackedFits(Paragraphs(text), text, size, overlap);
  }

  lemma PackedFits(paras: seq<string>, text: string, size: nat, overlap: nat)
    requires paras != [] && WordCount(paras) <= size
    ensures Packed(paras, text, size, overlap) == Ok([Join(" ", paras)])
  {
    FoldAllFits(paras, size, overlap);
    assert Finish(Acc([], paras, WordCount(paras))) == [Join(" ", paras)];
  }

  lemma FoldAllStep(paras: seq<string>, k: nat, size: nat, overlap: nat)
    requires k < |paras| && FoldAll(paras[..k], size, overlap).Ok?
    ensures FoldAll(paras[..k + 1], size, overlap) == Step(FoldAll(paras[..k], size, overlap).value, paras[k], size, overlap)
  {
    assert paras[..k + 1][..k] == paras[..k];
  }

  /** The flush of the loop body, on the three loop variables. */
  method FlushChunk(chunks: seq<string>, current: seq<string>, length: int, paraLength: nat, size: nat, overlap: nat)
    returns (chunks': seq<string>, current': seq<string>, length': int)
    ensures Acc(chunks', current', length') == Flush(Acc(chunks, current, length), paraLength, size, overlap)
  {
    chunks', current', length' := chunks, current, length;
    if length + paraLength > size && current != [] {
      chunks' := chunks + [Join(" ", current)];
      if overlap > 0 {
        var overlapWords := LastN(Words(current[|current| - 1]), overlap);
        current' := if overlapWords != [] then [Join(" ", overlapWords)] else [];
        length' := |overlapWords|;
      } else {
        current' := [];
        length' := 0;
      }
    }
  }

  /** One pass of the loop body: the flush, then the windows or the append. */
  method ParagraphStep(chunks: seq<string>, current: seq<string>, length: int, para: string, size: nat, overlap: nat)
    returns (r: Result<Acc>)
    ensures r == Step(Acc(chunks, current, length), para, size, overlap)
  {
    var paraLength := |Words(para)|;
    var chunks', current', length' := FlushChunk(chunks, current, length, paraLength, size, overlap);
    if paraLength > size {
      var step := size - overlap;
      if step == 0 {
        return Err(RangeError);
      }
      if step > 0 {
        chunks' := AppendWindows(chunks', Words(para), size, step);
      }
    } else {
      current' := current' + [para];
      length' := length' + paraLength;
    }
    r := Ok(Acc(chunks', current', length'));
  }

  /** The loop of `_chunk_text`, updating the chunk list, the current chunk and its length. */
  method ChunkText(text: string, size: nat, overlap: nat) returns (r: Result<seq<string>>)
    ensures r == Chunked(text, size, overlap)
  {
    if IsBlank(text) {
      return Ok([]);
    }
    var paragraphs := Paragraphs(text);
    var chunks: seq<string> := [];
    var current: seq<string> := [];
    var length: int := 0;
    for k := 0 to |paragraphs|
      invariant FoldAll(paragraphs[..k], size, overlap) == Ok(Acc(chunks, current, length))
    {
      FoldAllStep(paragraphs, k, size, overlap);
      var next := ParagraphStep(chunks, current, length, paragraphs[k], size, overlap);
      if next.Err? {
        FoldAllErr(paragraphs, k + 1, size, overlap);
        return Err(next.message);
      }
      chunks, current, length := next.value.chunks, next.value.current, next.value.length;
    }
    assert paragraphs[..|paragraphs|] == paragraphs;
    ghost var final := Acc(chunks, current, length);
    if current != [] {
      chunks := chunks + [Join(" ", current)];
    }
    assert chunks == Finish(final);
    r := Ok(if chunks == [] then [text] else chunks);
  }

  // ---------------------------------------------------------------- add_document

  const DefaultChunkSize: nat := 500

  const DefaultChunkOverlap: nat := 50

  /** The arguments of `collection.add`, less the embeddings. */
  datatype Batch = Batch(ids: seq<string>, documents: seq<string>, metadatas: seq<map<string, string>>)

  /** `{"source": source, "chunk_index": str(i), **metadata}`: the caller's keys win. */
  function ChunkMetadata(source: string, i: nat, metadata: map<string, string>): (m: map<string, string>)
    ensures m.Keys == metadata.Keys + {"source", "chunk_index"}
    ensures forall key :: key in metadata ==> m[key] == metadata[key]
    ensures "source" !in metadata ==> m["source"] == source
    ensures "chunk_index" !in metadata ==> m["chunk_index"] == NatToString(i)
  {
    map["source" := source, "chunk_index" := NatToString(i)] + metadata
  }

  /**
   * The batch `add_document` sends, or None when it returns False: the store
   * is unavailable, the document has no chunks, or chunking raised.
   */
  function DocumentBatch(content: string, source: string, metadata: map<string, string>,
                         available: bool): (r: Option<Batch>)
    ensures r.Some? ==> |r.value.ids| == |r.value.documents| == |r.value.metadatas| > 0
    ensures r.Some? ==> forall i :: 0 <= i < |r.value.ids| ==>
              r.value.ids[i] == Retrieval.ChunkId(source, i)
              && r.value.metadatas[i] == ChunkMetadata(source, i, metadata)
    ensures r.Some? ==> forall i, j :: 0 <= i < j < |r.value.ids| ==> r.value.ids[i] != r.value.ids[j]
  {
    if !available then None
    else
      match Chunked(content, DefaultChunkSize, DefaultChunkOverlap)
      case Err(_) => None
      case Ok(cs) =>
        if cs == [] then None
        else
          var ids := seq(|cs|, i requires 0 <= i < |cs| => Retrieval.ChunkId(source, i));
          forall i, j | 0 <= i < j < |ids| ensures ids[i] != ids[j] {
            if ids[i] == ids[j] {
              Retrieval.ChunkIdInjective(source, i, j);
            }
          }
          Some(Batch(ids, cs, seq(|cs|, i requires 0 <= i < |cs| => ChunkMetadata(source, i, metadata))))
  }

  /** `add_document` returns True exactly when the store is there, the document is not blank, and the store accepts the batch. */
  function AddDocument(content: string, source: string, metadata: map<string, string>,
                       available: bool, accepted: bool): (ok: bool)
    ensures ok <==> available && !IsBlank(content) && accepted
  {
    ChunkedErr(content, DefaultChunkSize, DefaultChunkOverlap);
    DocumentBatch(content, source, metadata, available).Some? && accepted
  }
}
