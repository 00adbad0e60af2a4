/** `scripts/chunk_texts.py`: greedy packing of a text's non-blank lines
    into chunks of a bounded number of words. */
module ChunkTexts {
  import opened Text

  /** The lines a chunk is made of; the empty chunk has none. */
  function LinesOf(c: string): seq<string>
  {
    if c == [] then [] else Lines(c)
  }

  /** The lines of every chunk, in order. */
  function ChunkLines(cs: seq<string>): seq<string>
    decreases |cs|
  {
    if cs == [] then [] else ChunkLines(cs[..|cs| - 1]) + LinesOf(cs[|cs| - 1])
  }

  /** The non-blank lines of `ls`, stripped (the lines the chunker keeps). */
  function Paragraphs(ls: seq<string>): seq<string>
    decreases |ls|
  {
    if ls == [] then []
    else
      var p := Strip(ls[|ls| - 1]);
      Paragraphs(ls[..|ls| - 1]) + (if p == [] then [] else [p])
  }

  /** One more line adds its stripped form when it is not blank. */
  lemma ParagraphsSnoc(ls: seq<string>, i: nat)
    requires i < |ls| && '\n' !in ls[i]
    ensures Strip(ls[i]) == [] ==> Paragraphs(ls[..i + 1]) == Paragraphs(ls[..i])
    ensures Strip(ls[i]) != [] ==>
      Paragraphs(ls[..i + 1]) == Paragraphs(ls[..i]) + [Strip(ls[i])] && IsParagraph(Strip(ls[i]))
  {
    assert ls[..i + 1][..i] == ls[..i];
    var p := Strip(ls[i]);
    if p == [] {
      assert Paragraphs(ls[..i]) + [] == Paragraphs(ls[..i]);
    }
  }

  /** Before the first line nothing is packed. */
  lemma PackedStart(ls: seq<string>, maxWords: int)
    ensures Packed([], [], 0, Paragraphs(ls[..0]), maxWords)
  {
    assert ls[..0] == [];
    assert Words([]) == [];
  }

  lemma ConcatWordsOne(x: string)
    ensures ConcatWords([x]) == Words(x)
  {
    assert [x][1..] == [];
  }

  /** Blank and whitespace-only lines carry no words. */
  lemma {:induction false} ParagraphWords(ls: seq<string>)
    ensures ConcatWords(Paragraphs(ls)) == ConcatWords(ls)
    decreases |ls|
  {
    if ls != [] {
      var init, last := ls[..|ls| - 1], ls[|ls| - 1];
      var p := Strip(last);
      ParagraphWords(init);
      assert ls == init + [last];
      ConcatWordsAppend(init, [last]);
      ConcatWordsOne(last);
      StripKeepsWords(last);
      ConcatWordsAppend(Paragraphs(init), if p == [] then [] else [p]);
      if p == [] {
        assert Words(p) == [];
        assert ConcatWords([]) == [];
      } else {
        ConcatWordsOne(p);
      }
    }
  }

  lemma LinesOfWords(c: string)
    ensures ConcatWords(LinesOf(c)) == Words(c)
  {
    if c != [] {
      WordsByLines(c);
    }
  }

  /** The words of the chunks are the words of their lines. */
  lemma {:induction false} ChunkLinesWords(cs: seq<string>)
    ensures ConcatWords(ChunkLines(cs)) == ConcatWords(cs)
    decreases |cs|
  {
    if cs != [] {
      var init, last := cs[..|cs| - 1], cs[|cs| - 1];
      assert cs == init + [last];
      assert ChunkLines(cs) == ChunkLines(init) + LinesOf(last);
      calc {
        ConcatWords(ChunkLines(cs));
        { ConcatWordsAppend(ChunkLines(init), LinesOf(last)); }
        ConcatWords(ChunkLines(init)) + ConcatWords(LinesOf(last));
        { ChunkLinesWords(init); LinesOfWords(last); }
        ConcatWords(init) + Words(last);
        { ConcatWordsOne(last); }
        ConcatWords(init) + ConcatWords([last]);
        { ConcatWordsAppend(init, [last]); }
        ConcatWords(cs);
      }
    }
  }

  /** Text has no non-blank line exactly when it has no words. */
  lemma NoParagraphsNoWords(text: string)
    ensures Paragraphs(Lines(text)) == [] <==> Words(text) == []
  {
    ParagraphWords(Lines(text));
    WordsByLines(text);
    ParagraphsStripped(Lines(text));
    NoWordsNoParagraphs(Paragraphs(Lines(text)));
  }

  lemma {:induction false} NoWordsNoParagraphs(ps: seq<string>)
    requires forall k :: 0 <= k < |ps| ==> ps[k] != [] && IsStripped(ps[k])
    ensures ps == [] <==> ConcatWords(ps) == []
  {
    if ps != [] {
      assert !IsSpace(ps[0][0]);
      assert Words(ps[0]) != [];
    }
  }

  lemma {:induction false} ParagraphsStripped(ls: seq<string>)
    ensures forall k :: 0 <= k < |Paragraphs(ls)| ==> Paragraphs(ls)[k] != [] && IsStripped(Paragraphs(ls)[k])
    decreases |ls|
  {
    if ls != [] {
      ParagraphsStripped(ls[..|ls| - 1]);
    }
  }

  /** `body` extended by one more line, as `chunk += para + "\n"` does. */
  function Extend(body: string, para: string): string
  {
    if body == [] then para else body + "\n" + para
  }

  /** What the loop keeps true once it has seen the paragraphs `ps`: the
      chunks are well formed and, with the open chunk, cover exactly `ps`. */
  ghost predicate Packed(chunks: seq<string>, body: string, wordCount: int, ps: seq<string>, maxWords: int)
  {
    Chunked(chunks, body, wordCount, maxWords) && Covers(chunks, body, ps, maxWords)
  }

  /** Every emitted chunk is well formed, the open chunk `body` is stripped
      and holds `wordCount` words, it is over the bound only as a single
      line, and the last cut was forced by its first line. */
  ghost predicate Chunked(chunks: seq<string>, body: string, wordCount: int, maxWords: int)
  {
    WellChunked(chunks, maxWords) &&
    IsStripped(body) &&
    wordCount == |Words(body)| &&
    (wordCount <= maxWords || '\n' !in body) &&
    (chunks != [] ==> |Words(chunks[|chunks| - 1])| + |Words(Lines(body)[0])| > maxWords)
  }

  /** The emitted `chunks` and the open chunk `body` hold exactly the
      paragraphs `ps`, and the first chunk is empty exactly when the first
      paragraph is over the bound. */
  ghost predicate Covers(chunks: seq<string>, body: string, ps: seq<string>, maxWords: int)
  {
    ChunkLines(chunks) + LinesOf(body) == ps &&
    (body == [] <==> ps == []) &&
    (chunks != [] ==> body != []) &&
    (chunks == [] && body != [] ==> |Words(ps[0])| <= maxWords) &&
    (chunks != [] ==> (chunks[0] == [] <==> |Words(ps[0])| > maxWords))
  }

  /** What holds of any sequence of chunks the chunker emits, stated one
      chunk at a time from the end: each is stripped, only the first may be
      empty, one over the bound is a single line, and starting it was forced
      because its first line would have taken the previous chunk over the
      bound. `ChunksBounded` states the same for all chunks at once. */
  ghost predicate WellChunked(cs: seq<string>, maxWords: int)
    decreases |cs|
  {
    cs == [] ||
    var init, c := cs[..|cs| - 1], cs[|cs| - 1];
    WellChunked(init, maxWords) &&
    IsStripped(c) && (init != [] ==> c != []) &&
    (|Words(c)| <= maxWords || '\n' !in c) &&
    (init != [] ==> |Words(init[|init| - 1])| + |Words(Lines(c)[0])| > maxWords)
  }

  /** One more chunk keeps the sequence well chunked. */
  lemma WellChunkedSnoc(cs: seq<string>, c: string, maxWords: int)
    requires WellChunked(cs, maxWords)
    requires IsStripped(c) && (cs != [] ==> c != []) && (|Words(c)| <= maxWords || '\n' !in c)
    requires cs != [] ==> |Words(cs[|cs| - 1])| + |Words(Lines(c)[0])| > maxWords
    ensures WellChunked(cs + [c], maxWords)
  {
    var ds := cs + [c];
    assert ds[..|ds| - 1] == cs;
  }

  /** What a well-chunked sequence says about its chunk `k`. */
  lemma {:induction false} ChunkAt(cs: seq<string>, maxWords: int, k: nat)
    requires WellChunked(cs, maxWords) && k < |cs|
    ensures IsStripped(cs[k])
    ensures k > 0 ==> cs[k] != []
    ensures |Words(cs[k])| <= maxWords || '\n' !in cs[k]
    decreases |cs|
  {
    var init := cs[..|cs| - 1];
    if k < |cs| - 1 {
      ChunkAt(init, maxWords, k);
      assert cs[k] == init[k];
    }
  }

  /** What a well-chunked sequence says about the cut after chunk `k`. */
  lemma {:induction false} CutAt(cs: seq<string>, maxWords: int, k: nat)
    requires WellChunked(cs, maxWords) && k + 1 < |cs|
    ensures |Words(cs[k])| + |Words(Lines(cs[k + 1])[0])| > maxWords
    decreases |cs|
  {
    var init := cs[..|cs| - 1];
    assert cs[k] == init[k];
    if k + 1 < |init| {
      CutAt(init, maxWords, k);
      assert cs[k + 1] == init[k + 1];
    } else {
      assert init[|init| - 1] == cs[k];
    }
  }

  /** The chunk-by-chunk statement, for every chunk and every cut. */
  lemma ChunksBounded(cs: seq<string>, maxWords: int)
    requires WellChunked(cs, maxWords)
    ensures forall k :: 0 <= k < |cs| ==> IsStripped(cs[k])
    ensures forall k :: 0 < k < |cs| ==> cs[k] != []
    ensures forall k :: 0 <= k < |cs| ==> |Words(cs[k])| <= maxWords || '\n' !in cs[k]
    ensures forall k :: 0 <= k < |cs| - 1 ==> |Words(cs[k])| + |Words(Lines(cs[k + 1])[0])| > maxWords
  {
    forall k | 0 <= k < |cs|
      ensures IsStripped(cs[k]) && (k > 0 ==> cs[k] != []) &&
        (|Words(cs[k])| <= maxWords || '\n' !in cs[k]) &&
        (k < |cs| - 1 ==> |Words(cs[k])| + |Words(Lines(cs[k + 1])[0])| > maxWords)
    {
      ChunkAt(cs, maxWords, k);
      if k < |cs| - 1 {
        CutAt(cs, maxWords, k);
      }
    }
  }

  /** A paragraph the loop takes in. */
  predicate IsParagraph(para: string)
  {
    para != [] && IsStripped(para) && '\n' !in para
  }

  /** The next paragraph does not fit: the open chunk is emitted and a new
      one starts with the paragraph. */
  lemma {:induction false} PackedCut(chunks: seq<string>, body: string, wordCount: int, ps: seq<string>, maxWords: int, para: string)
    requires Packed(chunks, body, wordCount, ps, maxWords)
    requires IsParagraph(para) && wordCount + |Words(para)| > maxWords
    ensures Packed(chunks + [body], para, |Words(para)|, ps + [para], maxWords)
  {
    var cs := chunks + [body];
    assert cs[..|cs| - 1] == chunks;
    LinesOfLine(para);
    WellChunkedSnoc(chunks, body, maxWords);
    assert ChunkLines(cs) == ChunkLines(chunks) + LinesOf(body);
    assert chunks != [] ==> (ps + [para])[0] == ps[0];
  }

  /** What joining one more line to the open chunk does to it. */
  lemma ExtendFacts(body: string, para: string)
    requires IsStripped(body) && IsParagraph(para)
    ensures IsStripped(Extend(body, para)) && Extend(body, para) != []
    ensures Words(Extend(body, para)) == Words(body) + Words(para)
    ensures LinesOf(Extend(body, para)) == LinesOf(body) + [para]
    ensures body != [] ==> Lines(Extend(body, para))[0] == Lines(body)[0]
    ensures body == [] ==> '\n' !in Extend(body, para)
  {
    LinesOfLine(para);
    if body != [] {
      WordsJoin(body, para);
      LinesAppend(body, para);
      var b := body + "\n" + para;
      assert b[0] == body[0] && b[|b| - 1] == para[|para| - 1];
    } else {
      assert Words(body) == [];
    }
  }

  /** The open chunk stays well formed when a fitting paragraph joins it. */
  lemma AppendChunked(chunks: seq<string>, body: string, wordCount: int, maxWords: int, para: string)
    requires Chunked(chunks, body, wordCount, maxWords)
    requires IsParagraph(para) && wordCount + |Words(para)| <= maxWords
    ensures Chunked(chunks, Extend(body, para), wordCount + |Words(para)|, maxWords)
  {
    ExtendFacts(body, para);
  }

  /** Joining one more line adds it to the lines of the open chunk. */
  lemma ExtendLines(body: string, para: string)
    requires IsParagraph(para)
    ensures Extend(body, para) != []
    ensures LinesOf(Extend(body, para)) == LinesOf(body) + [para]
  {
    LinesOfLine(para);
    if body != [] {
      LinesAppend(body, para);
    }
  }

  /** The chunks keep covering the paragraphs when one more joins. */
  lemma AppendCovers(chunks: seq<string>, body: string, ps: seq<string>, maxWords: int, para: string)
    requires Covers(chunks, body, ps, maxWords)
    requires IsStripped(body) && IsParagraph(para) && (ps == [] ==> |Words(para)| <= maxWords)
    ensures Covers(chunks, Extend(body, para), ps + [para], maxWords)
  {
    ExtendLines(body, para);
    assert ChunkLines(chunks) + (LinesOf(body) + [para]) == (ChunkLines(chunks) + LinesOf(body)) + [para];
    if ps != [] {
      assert (ps + [para])[0] == ps[0];
    } else {
      assert (ps + [para])[0] == para;
    }
  }

  /** The next paragraph fits: it joins the open chunk. */
  lemma PackedAppend(chunks: seq<string>, body: string, wordCount: int, ps: seq<string>, maxWords: int, para: string)
    requires Packed(chunks, body, wordCount, ps, maxWords)
    requires IsParagraph(para) && wordCount + |Words(para)| <= maxWords
    ensures Packed(chunks, Extend(body, para), wordCount + |Words(para)|, ps + [para], maxWords)
  {
    AppendChunked(chunks, body, wordCount, maxWords, para);
    AppendCovers(chunks, body, ps, maxWords, para);
  }

  /** The open chunk, once the loop is done. */
  function Flushed(chunks: seq<string>, body: string): seq<string>
  {
    if body == [] then chunks else chunks + [body]
  }

  /** Emitting the last open chunk gives the properties of the result. */
  lemma {:induction false} PackedFinish(chunks: seq<string>, body: string, wordCount: int, ps: seq<string>, maxWords: int)
    requires Packed(chunks, body, wordCount, ps, maxWords)
    ensures var cs := Flushed(chunks, body);
      ChunkLines(cs) == ps && (cs == [] <==> ps == []) && WellChunked(cs, maxWords) &&
      (cs != [] ==> ps != [] && (cs[0] == [] <==> |Words(ps[0])| > maxWords))
  {
    if body != [] {
      var cs := chunks + [body];
      assert cs[..|cs| - 1] == chunks;
      WellChunkedSnoc(chunks, body, maxWords);
      assert chunks != [] ==> cs[0] == chunks[0];
    }
  }

  /** Chunks whose lines are the text's paragraphs hold exactly the text's
      words. */
  lemma ChunksHoldTheWords(text: string, chunks: seq<string>)
    requires ChunkLines(chunks) == Paragraphs(Lines(text))
    ensures ConcatWords(chunks) == Words(text)
  {
    ChunkLinesWords(chunks);
    ParagraphWords(Lines(text));
    WordsByLines(text);
  }

  /** `chunk` is the open chunk whose lines make up `body`. */
  predicate Open(chunk: string, body: string)
  {
    if body == [] then chunk == [] else chunk == body + "\n"
  }

  /** The open chunk is its lines, each followed by a newline; stripping it
      gives them joined by newlines, and one more line extends it. */
  lemma OpenChunk(body: string, chunk: string)
    requires IsStripped(body)
    requires Open(chunk, body)
    ensures Strip(chunk) == body
    ensures chunk == [] <==> body == []
  {
    if body != [] {
      StripTrailingNewline(body);
    } else {
      assert AllSpace(chunk);
    }
  }

  /** What `split_into_chunks(text, max_words)` returns: chunks whose lines
      are exactly the text's non-blank lines, stripped and in order; that
      hold exactly the text's words; that are none exactly when the text
      has no words; that are well chunked; and whose first chunk is empty
      exactly when the first line alone is over the bound. */
  ghost predicate Chunking(text: string, maxWords: int, cs: seq<string>)
  {
    var ps := Paragraphs(Lines(text));
    ChunkLines(cs) == ps &&
    ConcatWords(cs) == Words(text) &&
    (cs == [] <==> Words(text) == []) &&
    WellChunked(cs, maxWords) &&
    (cs != [] ==> ps != [] && (cs[0] == [] <==> |Words(ps[0])| > maxWords))
  }

  /** The final flush of the open chunk establishes the result's
      properties. */
  lemma ChunkingDone(text: string, maxWords: int, chunks: seq<string>, body: string, chunk: string, wordCount: int)
    requires Open(chunk, body)
    requires Packed(chunks, body, wordCount, Paragraphs(Lines(text)), maxWords)
    ensures Chunking(text, maxWords, if chunk != [] then chunks + [Strip(chunk)] else chunks)
  {
    var ps := Paragraphs(Lines(text));
    PackedFinish(chunks, body, wordCount, ps, maxWords);
    OpenChunk(body, chunk);
    var cs := if chunk != [] then chunks + [Strip(chunk)] else chunks;
    assert cs == Flushed(chunks, body);
    ChunksHoldTheWords(text, cs);
    NoParagraphsNoWords(text);
  }

  /** One more line joins the open chunk. */
  lemma ExtendOpen(body: string, chunk: string, para: string)
    requires Open(chunk, body) && para != []
    ensures Open(chunk + para + "\n", Extend(body, para))
  {
    if body != [] {
      assert chunk + para + "\n" == body + "\n" + para + "\n";
    } else {
      assert chunk + para + "\n" == para + "\n";
    }
  }

  /** The loop's state: the emitted chunks, the open chunk, the number of
      words in it, and its text without the trailing newline. */
  datatype Progress = Progress(chunks: seq<string>, chunk: string, wordCount: int, body: string)

  /** One iteration of the loop over lines. */
  function Step(p: Progress, line: string, maxWords: int): Progress
  {
    var para := Strip(line);
    if para == [] then p
    else if p.wordCount + |Words(para)| > maxWords then
      Progress(p.chunks + [Strip(p.chunk)], para + "\n", |Words(para)|, para)
    else
      Progress(p.chunks, p.chunk + para + "\n", p.wordCount + |Words(para)|, Extend(p.body, para))
  }

  /** The loop's state after the lines `ls`. */
  function Fold(ls: seq<string>, maxWords: int): Progress
    decreases |ls|
  {
    if ls == [] then Progress([], "", 0, "")
    else Step(Fold(ls[..|ls| - 1], maxWords), ls[|ls| - 1], maxWords)
  }

  /** What `split_into_chunks` returns: the folded chunks, then the open one if any. */
  function Chunks(text: string, maxWords: int): seq<string>
  {
    var p := Fold(Lines(text), maxWords);
    if p.chunk != [] then p.chunks + [Strip(p.chunk)] else p.chunks
  }

  /** One iteration keeps the packing invariant. */
  lemma PackedStep(p: Progress, ps: seq<string>, line: string, maxWords: int)
    requires Open(p.chunk, p.body) && Packed(p.chunks, p.body, p.wordCount, ps, maxWords)
    requires IsParagraph(Strip(line))
    ensures var q := Step(p, line, maxWords);
      Open(q.chunk, q.body) && Packed(q.chunks, q.body, q.wordCount, ps + [Strip(line)], maxWords)
  {
    var para := Strip(line);
    if p.wordCount + |Words(para)| > maxWords {
      OpenChunk(p.body, p.chunk);
      PackedCut(p.chunks, p.body, p.wordCount, ps, maxWords, para);
    } else {
      PackedAppend(p.chunks, p.body, p.wordCount, ps, maxWords, para);
      ExtendOpen(p.body, p.chunk, para);
    }
  }

  /** Every prefix of the loop keeps the packing invariant. */
  lemma {:induction false} FoldPacked(ls: seq<string>, i: nat, maxWords: int)
    requires i <= |ls|
    requires forall k :: 0 <= k < |ls| ==> '\n' !in ls[k]
    ensures var p := Fold(ls[..i], maxWords);
      Open(p.chunk, p.body) && Packed(p.chunks, p.body, p.wordCount, Paragraphs(ls[..i]), maxWords)
    decreases i
  {
    if i == 0 {
      assert ls[..0] == [];
      PackedStart(ls, maxWords);
    } else {
      var j := i - 1;
      FoldPacked(ls, j, maxWords);
      ParagraphsSnoc(ls, j);
      assert ls[..i][..j] == ls[..j];
      assert Fold(ls[..i], maxWords) == Step(Fold(ls[..j], maxWords), ls[j], maxWords);
      if Strip(ls[j]) != [] {
        PackedStep(Fold(ls[..j], maxWords), Paragraphs(ls[..j]), ls[j], maxWords);
      }
    }
  }

  /** Every property of the chunking holds of `Chunks`. */
  lemma ChunksChunk(text: string, maxWords: int)
    ensures Chunking(text, maxWords, Chunks(text, maxWords))
  {
    var ls := Lines(text);
    FoldPacked(ls, |ls|, maxWords);
    assert ls[..|ls|] == ls;
    var p := Fold(ls, maxWords);
    ChunkingDone(text, maxWords, p.chunks, p.body, p.chunk, p.wordCount);
  }

  /** The chunks hold exactly the words of the text, in order: none is
      lost or repeated. */
  lemma ChunksKeepWords(text: string, maxWords: int)
    ensures ConcatWords(Chunks(text, maxWords)) == Words(text)
  {
    ChunksChunk(text, maxWords);
  }

  /** The lines of the chunks are the text's non-blank lines, stripped. */
  lemma ChunksKeepLines(text: string, maxWords: int)
    ensures ChunkLines(Chunks(text, maxWords)) == Paragraphs(Lines(text))
  {
    ChunksChunk(text, maxWords);
  }

  /** A text without words gives no chunks, and any other text some. */
  lemma NoChunksWithoutWords(text: string, maxWords: int)
    ensures Chunks(text, maxWords) == [] <==> Words(text) == []
  {
    ChunksChunk(text, maxWords);
  }

  /** Every chunk is stripped, only the first may be empty, a chunk over the
      bound is a single line, and each cut was forced by the next line. */
  lemma ChunksWithinBound(text: string, maxWords: int)
    ensures var cs := Chunks(text, maxWords);
      (forall k :: 0 <= k < |cs| ==> IsStripped(cs[k])) &&
      (forall k :: 0 < k < |cs| ==> cs[k] != []) &&
      (forall k :: 0 <= k < |cs| ==> |Words(cs[k])| <= maxWords || '\n' !in cs[k]) &&
      (forall k :: 0 <= k < |cs| - 1 ==> |Words(cs[k])| + |Words(Lines(cs[k + 1])[0])| > maxWords)
  {
    ChunksChunk(text, maxWords);
    ChunksBounded(Chunks(text, maxWords), maxWords);
  }

  /** The first chunk is empty exactly when the first non-blank line alone
      is over the bound. */
  lemma EmptyFirstChunk(text: string, maxWords: int)
    ensures var cs, ps := Chunks(text, maxWords), Paragraphs(Lines(text));
      cs != [] ==> ps != [] && (cs[0] == [] <==> |Words(ps[0])| > maxWords)
  {
    ChunksChunk(text, maxWords);
  }

  /** `split_into_chunks(text, max_words)`. */
  method SplitIntoChunks(text: string, maxWords: int) returns (chunks: seq<string>)
    ensures chunks == Chunks(text, maxWords)
  {
    var paragraphs := Lines(text);
    chunks := [];
    var chunk := "";
    var wordCount := 0;
    ghost var body := "";
    for i := 0 to |paragraphs|
      invariant Progress(chunks, chunk, wordCount, body) == Fold(paragraphs[..i], maxWords)
    {
      assert paragraphs[..i + 1][..i] == paragraphs[..i];
      assert Fold(paragraphs[..i + 1], maxWords) == Step(Fold(paragraphs[..i], maxWords), paragraphs[i], maxWords);
      var para := Strip(paragraphs[i]);
      var words := Words(para);
      if para == [] {
      } else if wordCount + |words| > maxWords {
        chunks := chunks + [Strip(chunk)];
        chunk := para + "\n";
        body := para;
        wordCount := |words|;
      } else {
        chunk := chunk + para + "\n";
        body := Extend(body, para);
        wordCount := wordCount + |words|;
      }
    }
    assert paragraphs[..|paragraphs|] == paragraphs;
    if chunk != [] {
      chunks := chunks + [Strip(chunk)];
    }
  }
}
