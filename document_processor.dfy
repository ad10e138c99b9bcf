/**
 * OCR post-processing: grouping Tesseract's word table into paragraphs,
 * and the per-page and per-image records built around it. The OCR engine,
 * PDF rasterisation and image preprocessing are inputs.
 */
module DocumentProcessor {
  import opened Wrappers
  import opened Text

  /** The columns of `image_to_data`'s dictionary that the grouping reads. */
  datatype OcrData = OcrData(text: seq<string>, conf: seq<int>, blockNum: seq<int>)

  /** Every index of `text` has a confidence and a block number. Tesseract's table has columns of equal
      length, so the model assumes this of its input; the loop itself reads `block_num` only at kept
      tokens and their successors, and would not fail on every shorter column. */
  predicate WellFormed(ocr: OcrData) {
    |ocr.text| <= |ocr.conf| && |ocr.text| <= |ocr.blockNum|
  }

  datatype Structure = Structure(paragraphs: nat, totalWords: nat)

  datatype StructuredText = StructuredText(text: string, avgConfidence: real, structure: Structure)

  const MinConfidence: int := 30

  /** The stripped text of token `i`. */
  function Token(ocr: OcrData, i: nat): string
    requires i < |ocr.text|
  {
    Strip(ocr.text[i])
  }

  /** Token `i` passes the filter: confidence above 30 and something left after stripping. */
  predicate Kept(ocr: OcrData, i: nat)
    requires WellFormed(ocr) && i < |ocr.text|
  {
    ocr.conf[i] > MinConfidence && Token(ocr, i) != ""
  }

  /** A kept token closes its paragraph when the next row is past the end or in another block. */
  predicate Closes(ocr: OcrData, i: nat)
    requires WellFormed(ocr) && i < |ocr.text|
  {
    Kept(ocr, i) && (i + 1 == |ocr.text| || ocr.blockNum[i] != ocr.blockNum[i + 1])
  }

  /** The paragraphs the loop emits from row `i` on, with `current` already buffered. */
  function Group(ocr: OcrData, i: nat, current: seq<string>): seq<seq<string>>
    requires WellFormed(ocr) && i <= |ocr.text|
    decreases |ocr.text| - i
  {
    if i == |ocr.text| then (if current == [] then [] else [current])
    else if Kept(ocr, i) then
      if Closes(ocr, i) then [current + [Token(ocr, i)]] + Group(ocr, i + 1, [])
      else Group(ocr, i + 1, current + [Token(ocr, i)])
    else Group(ocr, i + 1, current)
  }

  /** The kept tokens from row `i` on, in order. */
  function KeptTokens(ocr: OcrData, i: nat): seq<string>
    requires WellFormed(ocr) && i <= |ocr.text|
    decreases |ocr.text| - i
  {
    if i == |ocr.text| then []
    else (if Kept(ocr, i) then [Token(ocr, i)] else []) + KeptTokens(ocr, i + 1)
  }

  /** The confidences of the kept tokens from row `i` on, in order. */
  function KeptConfidences(ocr: OcrData, i: nat): (r: seq<int>)
    requires WellFormed(ocr) && i <= |ocr.text|
    ensures forall k :: 0 <= k < |r| ==> r[k] > MinConfidence
    ensures |r| == |KeptTokens(ocr, i)|
    decreases |ocr.text| - i
  {
    if i == |ocr.text| then []
    else (if Kept(ocr, i) then [ocr.conf[i]] else []) + KeptConfidences(ocr, i + 1)
  }

  function Sum(xs: seq<int>): int {
    if xs == [] then 0 else xs[0] + Sum(xs[1..])
  }

  /** `np.mean(xs) if xs else 0`. */
  function Mean(xs: seq<int>): real {
    if xs == [] then 0.0 else Sum(xs) as real / |xs| as real
  }

  /** `' '.join(p)` for each paragraph. */
  function JoinEach(ps: seq<seq<string>>): (r: seq<string>)
    ensures |r| == |ps|
  {
    seq(|ps|, k requires 0 <= k < |ps| => Join(" ", ps[k]))
  }

  /** What `extract_structured_text` returns for a well-formed table. */
  function Structured(ocr: OcrData): StructuredText
    requires WellFormed(ocr)
  {
    var blocks := JoinEach(Group(ocr, 0, []));
    StructuredText(
      Join("\n\n", blocks),
      Mean(KeptConfidences(ocr, 0)),
      Structure(|blocks|, if blocks == [] then 0 else WordCount(Join(" ", blocks))))
  }

  // ---------------------------------------------------------------------
  // Properties of the grouping
  // ---------------------------------------------------------------------

  /** No paragraph is empty. */
  lemma {:induction false} GroupNonEmpty(ocr: OcrData, i: nat, current: seq<string>)
    requires WellFormed(ocr) && i <= |ocr.text|
    ensures forall k :: 0 <= k < |Group(ocr, i, current)| ==> Group(ocr, i, current)[k] != []
    decreases |ocr.text| - i
  {
    if i < |ocr.text| {
      if Kept(ocr, i) {
        if Closes(ocr, i) {
          GroupNonEmpty(ocr, i + 1, []);
        } else {
          GroupNonEmpty(ocr, i + 1, current + [Token(ocr, i)]);
        }
      } else {
        GroupNonEmpty(ocr, i + 1, current);
      }
    }
  }

  lemma ConcatCons(p: seq<string>, rest: seq<seq<string>>)
    ensures Concat([p] + rest) == p + Concat(rest)
  {
    assert ([p] + rest)[1..] == rest;
  }

  /** The paragraphs hold exactly the kept tokens, in order: none lost, none repeated. */
  lemma {:induction false} GroupConcat(ocr: OcrData, i: nat, current: seq<string>)
    requires WellFormed(ocr) && i <= |ocr.text|
    ensures Concat(Group(ocr, i, current)) == current + KeptTokens(ocr, i)
    decreases |ocr.text| - i
  {
    if i == |ocr.text| {
      if current != [] {
        ConcatCons(current, []);
      }
    } else if Kept(ocr, i) {
      var next := current + [Token(ocr, i)];
      assert KeptTokens(ocr, i) == [Token(ocr, i)] + KeptTokens(ocr, i + 1);
      assert current + KeptTokens(ocr, i) == next + KeptTokens(ocr, i + 1);
      if Closes(ocr, i) {
        assert Group(ocr, i, current) == [next] + Group(ocr, i + 1, []);
        GroupConcat(ocr, i + 1, []);
        assert [] + KeptTokens(ocr, i + 1) == KeptTokens(ocr, i + 1);
        ConcatCons(next, Group(ocr, i + 1, []));
      } else {
        assert Group(ocr, i, current) == Group(ocr, i + 1, next);
        GroupConcat(ocr, i + 1, next);
      }
    } else {
      assert KeptTokens(ocr, i) == [] + KeptTokens(ocr, i + 1);
      assert Group(ocr, i, current) == Group(ocr, i + 1, current);
      GroupConcat(ocr, i + 1, current);
    }
  }

  lemma {:induction false} ConcatLength(ps: seq<seq<string>>)
    requires forall k :: 0 <= k < |ps| ==> ps[k] != []
    ensures |ps| <= |Concat(ps)|
  {
    if ps != [] {
      ConcatLength(ps[1..]);
    }
  }

  /** There are never more paragraphs than kept tokens, and no tokens means no paragraphs. */
  lemma ParagraphCount(ocr: OcrData)
    requires WellFormed(ocr)
    ensures |Group(ocr, 0, [])| <= |KeptTokens(ocr, 0)|
  {
    GroupNonEmpty(ocr, 0, []);
    GroupConcat(ocr, 0, []);
    ConcatLength(Group(ocr, 0, []));
  }

  lemma {:induction false} SumBelow(xs: seq<int>)
    requires forall k :: 0 <= k < |xs| ==> xs[k] > MinConfidence
    ensures Sum(xs) >= (MinConfidence + 1) * |xs|
  {
    if xs != [] {
      SumBelow(xs[1..]);
    }
  }

  lemma MeanAbove(xs: seq<int>)
    requires xs != [] && forall k :: 0 <= k < |xs| ==> xs[k] > MinConfidence
    ensures Mean(xs) > MinConfidence as real
  {
    SumBelow(xs);
    QuotientAbove(Sum(xs) as real, |xs| as real);
  }

  lemma QuotientAbove(s: real, n: real)
    requires n > 0.0 && s >= 31.0 * n
    ensures s / n > 30.0
  {
    var q := s / n;
    assert q * n == s;
    assert (q - 31.0) * n >= 0.0;
  }

  /** A page with kept tokens has an average confidence above the threshold; one without has 0. */
  lemma AverageAboveThreshold(ocr: OcrData)
    requires WellFormed(ocr)
    ensures KeptConfidences(ocr, 0) == [] ==> Structured(ocr).avgConfidence == 0.0
    ensures KeptConfidences(ocr, 0) != [] ==> Structured(ocr).avgConfidence > MinConfidence as real
  {
    var confs := KeptConfidences(ocr, 0);
    assert Structured(ocr).avgConfidence == Mean(confs);
    if confs != [] {
      MeanAbove(confs);
    }
  }

  lemma {:induction false} SumWordCountsAppend(a: seq<string>, b: seq<string>)
    ensures SumWordCounts(a + b) == SumWordCounts(a) + SumWordCounts(b)
  {
    if a == [] {
      assert a + b == b;
    } else {
      assert (a + b)[0] == a[0] && (a + b)[1..] == a[1..] + b;
      SumWordCountsAppend(a[1..], b);
    }
  }

  lemma {:induction false} WordsOfParagraphs(ps: seq<seq<string>>)
    ensures SumWordCounts(JoinEach(ps)) == SumWordCounts(Concat(ps))
  {
    if ps != [] {
      assert JoinEach(ps)[1..] == JoinEach(ps[1..]);
      WordsOfParagraphs(ps[1..]);
      WordCountOfSpaceJoin(ps[0]);
      SumWordCountsAppend(ps[0], Concat(ps[1..]));
    }
  }

  /** `total_words` counts the words of the kept tokens, paragraph joins adding none. */
  lemma TotalWordsOfKeptTokens(ocr: OcrData)
    requires WellFormed(ocr)
    ensures Structured(ocr).structure.totalWords == SumWordCounts(KeptTokens(ocr, 0))
  {
    var ps := Group(ocr, 0, []);
    var blocks := JoinEach(ps);
    GroupConcat(ocr, 0, []);
    assert [] + KeptTokens(ocr, 0) == KeptTokens(ocr, 0);
    WordsOfParagraphs(ps);
    if blocks != [] {
      WordCountOfSpaceJoin(blocks);
    } else {
      assert ps == [];
    }
  }

  /** The loop's state after rows `0..i`: the closed paragraphs followed by what the rest of the rows
      yield from the buffered `current` are all the paragraphs, the joined blocks are the closed
      paragraphs joined, and the recorded confidences followed by the rest are all kept confidences. */
  ghost predicate Consumed(ocr: OcrData, i: nat, paragraphs: seq<seq<string>>, current: seq<string>,
                           blocks: seq<string>, confidences: seq<int>)
    requires WellFormed(ocr) && i <= |ocr.text|
  {
    paragraphs + Group(ocr, i, current) == Group(ocr, 0, []) &&
    blocks == JoinEach(paragraphs) &&
    confidences + KeptConfidences(ocr, i) == KeptConfidences(ocr, 0)
  }

  /** A dropped row changes neither the paragraphs still to come nor the confidences. */
  lemma SkipRow(ocr: OcrData, i: nat, paragraphs: seq<seq<string>>, current: seq<string>,
                blocks: seq<string>, confidences: seq<int>)
    requires WellFormed(ocr) && i < |ocr.text| && !Kept(ocr, i)
    requires Consumed(ocr, i, paragraphs, current, blocks, confidences)
    ensures Consumed(ocr, i + 1, paragraphs, current, blocks, confidences)
  {
    assert [] + KeptConfidences(ocr, i + 1) == KeptConfidences(ocr, i + 1);
  }

  /** A kept row records its confidence. */
  lemma KeepConfidence(ocr: OcrData, i: nat, confidences: seq<int>)
    requires WellFormed(ocr) && i < |ocr.text| && Kept(ocr, i)
    requires confidences + KeptConfidences(ocr, i) == KeptConfidences(ocr, 0)
    ensures (confidences + [ocr.conf[i]]) + KeptConfidences(ocr, i + 1) == KeptConfidences(ocr, 0)
  {
    assert KeptConfidences(ocr, i) == [ocr.conf[i]] + KeptConfidences(ocr, i + 1);
  }

  /** A kept row that does not close its paragraph extends the buffer. */
  lemma ExtendRow(ocr: OcrData, i: nat, paragraphs: seq<seq<string>>, current: seq<string>,
                  blocks: seq<string>, confidences: seq<int>)
    requires WellFormed(ocr) && i < |ocr.text| && Kept(ocr, i) && !Closes(ocr, i)
    requires Consumed(ocr, i, paragraphs, current, blocks, confidences)
    ensures Consumed(ocr, i + 1, paragraphs, current + [Token(ocr, i)], blocks, confidences + [ocr.conf[i]])
  {
    KeepConfidence(ocr, i, confidences);
  }

  /** A kept row that closes its paragraph emits the buffer with its token as one joined block. */
  lemma CloseRow(ocr: OcrData, i: nat, paragraphs: seq<seq<string>>, current: seq<string>,
                 blocks: seq<string>, confidences: seq<int>)
    requires WellFormed(ocr) && i < |ocr.text| && Closes(ocr, i)
    requires Consumed(ocr, i, paragraphs, current, blocks, confidences)
    ensures var p := current + [Token(ocr, i)];
      Consumed(ocr, i + 1, paragraphs + [p], [], blocks + [Join(" ", p)], confidences + [ocr.conf[i]])
  {
    KeepConfidence(ocr, i, confidences);
    CloseParagraph(ocr, i, paragraphs, current);
    JoinEachAppend(paragraphs, current + [Token(ocr, i)]);
  }

  lemma CloseParagraph(ocr: OcrData, i: nat, paragraphs: seq<seq<string>>, current: seq<string>)
    requires WellFormed(ocr) && i < |ocr.text| && Closes(ocr, i)
    requires paragraphs + Group(ocr, i, current) == Group(ocr, 0, [])
    ensures (paragraphs + [current + [Token(ocr, i)]]) + Group(ocr, i + 1, []) == Group(ocr, 0, [])
  {
    var p := current + [Token(ocr, i)];
    assert Group(ocr, i, current) == [p] + Group(ocr, i + 1, []);
    assert paragraphs + ([p] + Group(ocr, i + 1, [])) == (paragraphs + [p]) + Group(ocr, i + 1, []);
  }

  lemma JoinEachAppend(ps: seq<seq<string>>, p: seq<string>)
    ensures JoinEach(ps + [p]) == JoinEach(ps) + [Join(" ", p)]
  {
  }

  // ---------------------------------------------------------------------
  // The loop itself
  // ---------------------------------------------------------------------

  /** `extract_structured_text`. */
  method ExtractStructuredText(ocr: OcrData) returns (r: StructuredText)
    requires WellFormed(ocr)
    ensures r == Structured(ocr)
  {
    var textBlocks: seq<string> := [];
    var currentParagraph: seq<string> := [];
    var validConfidences: seq<int> := [];
    ghost var paragraphs: seq<seq<string>> := [];
    var i := 0;
    while i < |ocr.text|
      invariant 0 <= i <= |ocr.text|
      invariant Consumed(ocr, i, paragraphs, currentParagraph, textBlocks, validConfidences)
    {
      var confidence := ocr.conf[i];
      var text := Strip(ocr.text[i]);
      if confidence > MinConfidence && text != "" {
        if Closes(ocr, i) {
          CloseRow(ocr, i, paragraphs, currentParagraph, textBlocks, validConfidences);
        } else {
          ExtendRow(ocr, i, paragraphs, currentParagraph, textBlocks, validConfidences);
        }
        currentParagraph := currentParagraph + [text];
        validConfidences := validConfidences + [confidence];
        var nextBlock: Option<int> := if i + 1 < |ocr.text| then Some(ocr.blockNum[i + 1]) else None;
        var currentBlock := ocr.blockNum[i];
        if nextBlock.None? || currentBlock != nextBlock.value {
          if currentParagraph != [] {
            textBlocks := textBlocks + [Join(" ", currentParagraph)];
            paragraphs := paragraphs + [currentParagraph];
            currentParagraph := [];
          }
        }
      } else {
        SkipRow(ocr, i, paragraphs, currentParagraph, textBlocks, validConfidences);
      }
      i := i + 1;
    }
    assert validConfidences == KeptConfidences(ocr, 0);
    if currentParagraph != [] {
      JoinEachAppend(paragraphs, currentParagraph);
      textBlocks := textBlocks + [Join(" ", currentParagraph)];
      paragraphs := paragraphs + [currentParagraph];
    } else {
      assert paragraphs + [] == paragraphs;
    }
    assert paragraphs == Group(ocr, 0, []);
    var avgConfidence := if validConfidences != [] then Mean(validConfidences) else 0.0;
    var totalWords := if textBlocks != [] then WordCount(Join(" ", textBlocks)) else 0;
    r := StructuredText(Join("\n\n", textBlocks), avgConfidence, Structure(|textBlocks|, totalWords));
  }

  // ---------------------------------------------------------------------
  // A paragraph can span two blocks
  // ---------------------------------------------------------------------

  /** Block 1 ends with a low-confidence word, block 2 starts with a kept one. */
  const MergeSample: OcrData := OcrData(["a", "b", "c"], [90, 10, 90], [1, 1, 2])

  /** As written, the two blocks come out as one paragraph "a c". */
  lemma ParagraphSpansBlocks()
    ensures Group(MergeSample, 0, []) == [["a", "c"]]
    ensures Kept(MergeSample, 0) && Kept(MergeSample, 2) && MergeSample.blockNum[0] != MergeSample.blockNum[2]
  {
    var ocr := MergeSample;
    StripWord("a");
    StripWord("c");
    assert Kept(ocr, 0) && !Closes(ocr, 0);
    assert !Kept(ocr, 1);
    assert Kept(ocr, 2) && Closes(ocr, 2);
    assert Group(ocr, 3, []) == [];
    assert Token(ocr, 2) == "c" && ["a"] + ["c"] == ["a", "c"];
    assert Group(ocr, 2, ["a"]) == [["a"] + [Token(ocr, 2)]] + Group(ocr, 3, []);
    assert Group(ocr, 2, ["a"]) == [["a", "c"]];
    assert Group(ocr, 1, ["a"]) == Group(ocr, 2, ["a"]);
    assert Group(ocr, 0, []) == Group(ocr, 1, [] + ["a"]);
    assert [] + ["a"] == ["a"];
  }

  lemma StripWord(w: string)
    requires |w| == 1 && !IsSpace(w[0])
    ensures Strip(w) == w
  {
    assert SkipSpace(w, 0) == 0;
    assert SkipSpaceBack(w, 1) == 1;
    assert w[0..1] == w;
  }

  /** A paragraph with the block its tokens came from. */
  datatype Paragraph = Paragraph(block: int, tokens: seq<string>)

  /** A kept token and its block. */
  datatype Tagged = Tagged(block: int, token: string)

  /**
   * The intended grouping: a paragraph is closed when the next KEPT token
   * belongs to another block (rows filtered out in between do not matter).
   */
  function GroupByBlock(ocr: OcrData, i: nat, current: Paragraph): seq<Paragraph>
    requires WellFormed(ocr) && i <= |ocr.text|
    decreases |ocr.text| - i
  {
    if i == |ocr.text| then (if current.tokens == [] then [] else [current])
    else if Kept(ocr, i) then
      if current.tokens != [] && current.block != ocr.blockNum[i] then
        [current] + GroupByBlock(ocr, i + 1, Paragraph(ocr.blockNum[i], [Token(ocr, i)]))
      else GroupByBlock(ocr, i + 1, Paragraph(ocr.blockNum[i], current.tokens + [Token(ocr, i)]))
    else GroupByBlock(ocr, i + 1, current)
  }

  function KeptTagged(ocr: OcrData, i: nat): seq<Tagged>
    requires WellFormed(ocr) && i <= |ocr.text|
    decreases |ocr.text| - i
  {
    if i == |ocr.text| then []
    else (if Kept(ocr, i) then [Tagged(ocr.blockNum[i], Token(ocr, i))] else []) + KeptTagged(ocr, i + 1)
  }

  function Tag(p: Paragraph): (r: seq<Tagged>)
    ensures |r| == |p.tokens|
  {
    seq(|p.tokens|, k requires 0 <= k < |p.tokens| => Tagged(p.block, p.tokens[k]))
  }

  function Expand(ps: seq<Paragraph>): seq<Tagged> {
    if ps == [] then [] else Tag(ps[0]) + Expand(ps[1..])
  }

  predicate SeparateBlocks(ps: seq<Paragraph>) {
    (forall k :: 0 <= k < |ps| ==> ps[k].tokens != [])
    && (forall k :: 0 < k < |ps| ==> ps[k - 1].block != ps[k].block)
  }

  lemma ExpandCons(p: Paragraph, rest: seq<Paragraph>)
    ensures Expand([p] + rest) == Tag(p) + Expand(rest)
  {
    assert ([p] + rest)[1..] == rest;
  }

  /** Adding a token of the paragraph's own block (or to an empty paragraph) tags it with that block. */
  lemma TagExtend(current: Paragraph, block: int, token: string)
    requires current.tokens == [] || current.block == block
    ensures Tag(Paragraph(block, current.tokens + [token])) == Tag(current) + [Tagged(block, token)]
  {
  }

  /** The intended grouping loses, adds and reorders no kept token, and keeps each with its block. */
  lemma {:induction false} GroupByBlockCovers(ocr: OcrData, i: nat, current: Paragraph)
    requires WellFormed(ocr) && i <= |ocr.text|
    ensures Expand(GroupByBlock(ocr, i, current)) == Tag(current) + KeptTagged(ocr, i)
    decreases |ocr.text| - i
  {
    if i == |ocr.text| {
      CoversEnd(ocr, current);
    } else if !Kept(ocr, i) {
      GroupByBlockCovers(ocr, i + 1, current);
      CoversSkipped(ocr, i, current);
    } else if current.tokens != [] && current.block != ocr.blockNum[i] {
      GroupByBlockCovers(ocr, i + 1, Paragraph(ocr.blockNum[i], [Token(ocr, i)]));
      CoversNewBlock(ocr, i, current);
    } else {
      GroupByBlockCovers(ocr, i + 1, Paragraph(ocr.blockNum[i], current.tokens + [Token(ocr, i)]));
      CoversSameBlock(ocr, i, current);
    }
  }

  /** At the end of the rows only the current paragraph remains, if it has tokens. */
  lemma CoversEnd(ocr: OcrData, current: Paragraph)
    requires WellFormed(ocr)
    ensures Expand(GroupByBlock(ocr, |ocr.text|, current)) == Tag(current) + KeptTagged(ocr, |ocr.text|)
  {
    if current.tokens != [] {
      ExpandCons(current, []);
      assert Expand([current]) == Tag(current);
    } else {
      assert Tag(current) == [];
    }
  }

  /** A dropped row changes neither the grouping nor the kept tokens. */
  lemma CoversSkipped(ocr: OcrData, i: nat, current: Paragraph)
    requires WellFormed(ocr) && i < |ocr.text| && !Kept(ocr, i)
    requires Expand(GroupByBlock(ocr, i + 1, current)) == Tag(current) + KeptTagged(ocr, i + 1)
    ensures Expand(GroupByBlock(ocr, i, current)) == Tag(current) + KeptTagged(ocr, i)
  {
    assert GroupByBlock(ocr, i, current) == GroupByBlock(ocr, i + 1, current);
    assert KeptTagged(ocr, i) == [] + KeptTagged(ocr, i + 1);
  }

  /** A kept token of another block closes the current paragraph and opens a new one. */
  lemma CoversNewBlock(ocr: OcrData, i: nat, current: Paragraph)
    requires WellFormed(ocr) && i < |ocr.text| && Kept(ocr, i)
    requires current.tokens != [] && current.block != ocr.blockNum[i]
    requires var next := Paragraph(ocr.blockNum[i], [Token(ocr, i)]);
             Expand(GroupByBlock(ocr, i + 1, next)) == Tag(next) + KeptTagged(ocr, i + 1)
    ensures Expand(GroupByBlock(ocr, i, current)) == Tag(current) + KeptTagged(ocr, i)
  {
    var t := Tagged(ocr.blockNum[i], Token(ocr, i));
    var next := Paragraph(ocr.blockNum[i], [Token(ocr, i)]);
    assert KeptTagged(ocr, i) == [t] + KeptTagged(ocr, i + 1);
    assert GroupByBlock(ocr, i, current) == [current] + GroupByBlock(ocr, i + 1, next);
    ExpandCons(current, GroupByBlock(ocr, i + 1, next));
    assert Tag(next) == [t];
  }

  /** A kept token of the current block (or the first kept token) extends the current paragraph. */
  lemma CoversSameBlock(ocr: OcrData, i: nat, current: Paragraph)
    requires WellFormed(ocr) && i < |ocr.text| && Kept(ocr, i)
    requires !(current.tokens != [] && current.block != ocr.blockNum[i])
    requires var next := Paragraph(ocr.blockNum[i], current.tokens + [Token(ocr, i)]);
             Expand(GroupByBlock(ocr, i + 1, next)) == Tag(next) + KeptTagged(ocr, i + 1)
    ensures Expand(GroupByBlock(ocr, i, current)) == Tag(current) + KeptTagged(ocr, i)
  {
    var t := Tagged(ocr.blockNum[i], Token(ocr, i));
    assert KeptTagged(ocr, i) == [t] + KeptTagged(ocr, i + 1);
    assert GroupByBlock(ocr, i, current) == GroupByBlock(ocr, i + 1, Paragraph(ocr.blockNum[i], current.tokens + [Token(ocr, i)]));
    TagExtend(current, ocr.blockNum[i], Token(ocr, i));
    assert (Tag(current) + [t]) + KeptTagged(ocr, i + 1) == Tag(current) + ([t] + KeptTagged(ocr, i + 1));
  }

  /** The intended grouping gives non-empty paragraphs, and neighbouring paragraphs lie in different blocks. */
  lemma {:induction false} GroupByBlockSeparates(ocr: OcrData, i: nat, current: Paragraph)
    requires WellFormed(ocr) && i <= |ocr.text|
    ensures var ps := GroupByBlock(ocr, i, current);
            && SeparateBlocks(ps)
            && (current.tokens != [] ==> ps != [] && ps[0].block == current.block)
    decreases |ocr.text| - i
  {
    if i < |ocr.text| {
      if Kept(ocr, i) {
        if current.tokens != [] && current.block != ocr.blockNum[i] {
          var next := Paragraph(ocr.blockNum[i], [Token(ocr, i)]);
          GroupByBlockSeparates(ocr, i + 1, next);
          var rest := GroupByBlock(ocr, i + 1, next);
          var ps := [current] + rest;
          assert forall k :: 0 < k < |ps| ==> ps[k] == rest[k - 1];
        } else {
          GroupByBlockSeparates(ocr, i + 1, Paragraph(ocr.blockNum[i], current.tokens + [Token(ocr, i)]));
        }
      } else {
        GroupByBlockSeparates(ocr, i + 1, current);
      }
    }
  }

  /** On the sample, the intended grouping keeps the blocks apart. */
  lemma MergeSampleByBlock()
    ensures GroupByBlock(MergeSample, 0, Paragraph(0, [])) == [Paragraph(1, ["a"]), Paragraph(2, ["c"])]
  {
    var ocr := MergeSample;
    StripWord("a");
    StripWord("c");
    assert Kept(ocr, 0) && !Kept(ocr, 1) && Kept(ocr, 2);
    var pa, pc := Paragraph(1, ["a"]), Paragraph(2, ["c"]);
    assert GroupByBlock(ocr, 3, pc) == [pc];
    assert GroupByBlock(ocr, 2, pa) == [pa] + GroupByBlock(ocr, 3, pc);
    assert GroupByBlock(ocr, 1, pa) == GroupByBlock(ocr, 2, pa);
    assert [] + ["a"] == ["a"];
    assert GroupByBlock(ocr, 0, Paragraph(0, [])) == GroupByBlock(ocr, 1, pa);
  }

  // ---------------------------------------------------------------------
  // Page and image records
  // ---------------------------------------------------------------------

  /** Where the last path component of `path[..j]` starts: just after the last '/', or 0. */
  function NameStart(path: string, j: nat): (k: nat)
    requires j <= |path|
    ensures k <= j
    ensures forall m :: k <= m < j ==> path[m] != '/'
    ensures k > 0 ==> path[k - 1] == '/'
  {
    if j == 0 || path[j - 1] == '/' then j else NameStart(path, j - 1)
  }

  /** `os.path.basename`: the part of the path after its last '/'. */
  function Basename(path: string): (r: string)
    ensures |r| <= |path| && path[|path| - |r|..] == r
    ensures forall k :: 0 <= k < |r| ==> r[k] != '/'
    ensures |r| < |path| ==> path[|path| - |r| - 1] == '/'
  {
    var k := NameStart(path, |path|);
    assert forall m :: 0 <= m < |path| - k ==> path[k..][m] == path[k + m];
    path[k..]
  }

  datatype PageRecord = PageRecord(pageNumber: nat, text: string, confidence: real, structure: Structure, source: string)

  datatype ImageRecord = ImageRecord(text: string, confidence: real, structure: Structure, source: string)

  /** What the OCR engine did with one image: raised, or produced a table. */
  datatype PageOcr = OcrFailed(message: string) | Recognized(ocr: OcrData)

  /** What `convert_from_path` did: raised, or produced the page images (already through OCR). */
  datatype Conversion = ConversionFailed(message: string) | Converted(pages: seq<PageOcr>)

  const NoStructure: Structure := Structure(0, 0)

  /** The OCR outcome yields a structured text (a malformed table raises inside the same `try`). */
  predicate Usable(p: PageOcr) {
    p.Recognized? && WellFormed(p.ocr)
  }

  /** The record of page `i` (0-based): OCR results, or the empty fallback. */
  function PageRecordOf(i: nat, p: PageOcr, source: string): (r: PageRecord)
    ensures r.pageNumber == i + 1 && r.source == source
    ensures !Usable(p) ==> r == PageRecord(i + 1, "", 0.0, NoStructure, source)
  {
    if Usable(p) then
      var st := Structured(p.ocr);
      PageRecord(i + 1, st.text, st.avgConfidence, st.structure, source)
    else PageRecord(i + 1, "", 0.0, NoStructure, source)
  }

  /** Appending the record of the next page keeps the records in page order. */
  lemma AppendRecord(records: seq<PageRecord>, record: PageRecord, pages: seq<PageOcr>, source: string)
    requires |records| < |pages|
    requires forall j :: 0 <= j < |records| ==> records[j] == PageRecordOf(j, pages[j], source)
    requires record == PageRecordOf(|records|, pages[|records|], source)
    ensures forall j :: 0 <= j <= |records| ==> (records + [record])[j] == PageRecordOf(j, pages[j], source)
  {
  }

  /**
   * `extract_text_from_pdf`: one record per page, numbered from 1 without
   * gaps; a failed conversion is re-raised.
   */
  method ExtractTextFromPdf(pdfPath: string, conversion: Conversion) returns (result: Result<seq<PageRecord>, string>)
    ensures conversion.ConversionFailed? ==> result == Failure(conversion.message)
    ensures conversion.Converted? ==> result.Success? && |result.value| == |conversion.pages|
    ensures conversion.Converted? ==>
              forall i :: 0 <= i < |conversion.pages| ==>
                result.value[i] == PageRecordOf(i, conversion.pages[i], Basename(pdfPath))
  {
    if conversion.ConversionFailed? {
      return Failure(conversion.message);
    }
    var pages := conversion.pages;
    var pagesData: seq<PageRecord> := [];
    var i := 0;
    while i < |pages|
      invariant 0 <= i <= |pages|
      invariant |pagesData| == i
      invariant forall j :: 0 <= j < i ==> pagesData[j] == PageRecordOf(j, pages[j], Basename(pdfPath))
    {
      var page := pages[i];
      var record: PageRecord;
      if page.Recognized? && WellFormed(page.ocr) {
        var pageText := ExtractStructuredText(page.ocr);
        record := PageRecord(i + 1, pageText.text, pageText.avgConfidence, pageText.structure, Basename(pdfPath));
      } else {
        record := PageRecord(i + 1, "", 0.0, NoStructure, Basename(pdfPath));
      }
      assert record == PageRecordOf(i, pages[i], Basename(pdfPath));
      AppendRecord(pagesData, record, pages, Basename(pdfPath));
      pagesData := pagesData + [record];
      i := i + 1;
    }
    return Success(pagesData);
  }

  /** `extract_text_from_image`: never raises; any failure gives the empty record. */
  function ExtractTextFromImage(imagePath: string, outcome: PageOcr): (r: ImageRecord)
    ensures r.source == Basename(imagePath)
    ensures !Usable(outcome) ==> r == ImageRecord("", 0.0, NoStructure, Basename(imagePath))
    ensures Usable(outcome) ==> r.text == Structured(outcome.ocr).text && r.structure == Structured(outcome.ocr).structure
    ensures Usable(outcome) ==> r.confidence == Structured(outcome.ocr).avgConfidence
  {
    if Usable(outcome) then
      var textData := Structured(outcome.ocr);
      ImageRecord(textData.text, textData.avgConfidence, textData.structure, Basename(imagePath))
    else ImageRecord("", 0.0, NoStructure, Basename(imagePath))
  }
}
