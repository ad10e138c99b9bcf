/**
 * The retrieval system of src/rag/retrieval_system.py: ingestion of
 * documents into a vector collection, query-time retrieval, and the section
 * tagger that labels every chunk.
 *
 * The text splitter, the sentence-embedding model and the vector
 * collection's nearest-neighbour query are third-party code: they appear as
 * the constant functions `split`, `encode` and `search` of a
 * `RetrievalSystem`. The collection itself is the log of `collection.add`
 * calls made on it, in order; what the store does with duplicate ids is its
 * own business and is not modelled.
 */
module Retrieval {
  import opened Wrappers
  import opened Text

  // ---------------------------------------------------------------------
  // Section tagging: the first of "Section <n[.n...]>", "Chapter <n>",
  // "Article <n>" (case-insensitive) found anywhere in a chunk.
  // ---------------------------------------------------------------------

  datatype SectionPattern = SectionNumber | ChapterNumber | ArticleNumber

  /** The pattern's keyword in lower case; text is lower-cased before comparing. */
  function Keyword(p: SectionPattern): string {
    match p
    case SectionNumber => "section"
    case ChapterNumber => "chapter"
    case ArticleNumber => "article"
  }

  /** Position of a pattern in the order the tagger tries them. */
  function Priority(p: SectionPattern): nat {
    match p
    case SectionNumber => 0
    case ChapterNumber => 1
    case ArticleNumber => 2
  }

  const Patterns: seq<SectionPattern> := [SectionNumber, ChapterNumber, ArticleNumber]

  /** Where `keyword\s+` ends when the keyword occurs at `i`. */
  function NumberStart(s: string, p: SectionPattern, i: nat): nat
    requires i + |Keyword(p)| <= |s|
  {
    SkipSpace(s, i + |Keyword(p)|)
  }

  /** The regular expression of pattern `p` matches at position `i`:
      the keyword in any case, at least one whitespace, then a digit. */
  predicate MatchesAt(s: string, p: SectionPattern, i: nat) {
    var kw := Keyword(p);
    i + |kw| <= |s| && Lower(s[i..i + |kw|]) == kw &&
    var k := NumberStart(s, p, i);
    k > i + |kw| && k < |s| && IsDigit(s[k])
  }

  /** Position `j` of a dotted number ending at `r`: a digit, or a dot followed by a digit. */
  predicate DotGroupAt(s: string, j: int, r: nat)
    requires 0 <= j < r <= |s|
  {
    IsDigit(s[j]) || (s[j] == '.' && j + 1 < r && IsDigit(s[j + 1]))
  }

  /** Between `e` and `r` lie only digits and dots each followed by a digit. */
  predicate DotGroups(s: string, e: nat, r: nat)
    requires e <= r <= |s|
  {
    forall j :: e <= j < r ==> DotGroupAt(s, j, r)
  }

  /** Two adjacent stretches of dot groups form one. */
  lemma DotGroupsJoin(s: string, a: nat, b: nat, c: nat)
    requires a <= b <= c <= |s| && DotGroups(s, a, b) && DotGroups(s, b, c)
    ensures DotGroups(s, a, c)
  {
    forall j | a <= j < c ensures DotGroupAt(s, j, c) {
      if j < b {
        assert DotGroupAt(s, j, b);
      } else {
        assert DotGroupAt(s, j, c);
      }
    }
  }

  /** A run of digits is a stretch of dot groups. */
  lemma DigitsAreDotGroups(s: string, a: nat, b: nat)
    requires a <= b <= |s| && forall j :: a <= j < b ==> IsDigit(s[j])
    ensures DotGroups(s, a, b)
  {
    forall j | a <= j < b ensures DotGroupAt(s, j, b) {
    }
  }

  /** End of the greedy `(?:\.\d+)*` that follows a run of digits ending at `e`. */
  function DottedEnd(s: string, e: nat): (r: nat)
    requires 0 < e <= |s| && IsDigit(s[e - 1])
    ensures e <= r <= |s| && IsDigit(s[r - 1])
    ensures DotGroups(s, e, r)
    ensures !(r + 1 < |s| && s[r] == '.' && IsDigit(s[r + 1]))
    decreases |s| - e
  {
    if e + 1 < |s| && s[e] == '.' && IsDigit(s[e + 1]) then
      var next := SkipDigits(s, e + 1);
      var r := DottedEnd(s, next);
      assert DotGroups(s, e, next) by {
        forall j | e <= j < next ensures DotGroupAt(s, j, next) {
        }
      }
      DotGroupsJoin(s, e, next, r);
      r
    else
      e
  }

  /** A section number as the Section pattern captures it: digit groups joined by single dots. */
  predicate IsDottedNumber(c: string) {
    |c| > 0 && IsDigit(c[0]) && IsDigit(c[|c| - 1]) && DotGroups(c, 0, |c|)
  }

  /** Group 1 of the match of `p` at `i`. */
  function Capture(s: string, p: SectionPattern, i: nat): (c: string)
    requires MatchesAt(s, p, i)
    ensures IsDottedNumber(c)
    ensures p != SectionNumber ==> AllDigits(c)
  {
    var k := NumberStart(s, p, i);
    var e := SkipDigits(s, k);
    DigitsAreDotGroups(s, k, e);
    if p == SectionNumber then
      var d := DottedEnd(s, e);
      DotGroupsJoin(s, k, e, d);
      DotGroupsSlice(s, k, d);
      s[k..d]
    else
      DotGroupsSlice(s, k, e);
      assert forall j :: 0 <= j < e - k ==> s[k..e][j] == s[k + j];
      s[k..e]
  }

  lemma DotGroupsSlice(s: string, k: nat, d: nat)
    requires k <= d <= |s| && DotGroups(s, k, d)
    ensures DotGroups(s[k..d], 0, d - k)
  {
    var c := s[k..d];
    forall j | 0 <= j < |c| ensures DotGroupAt(c, j, |c|) {
      assert DotGroupAt(s, k + j, d);
      assert c[j] == s[k + j];
      if j + 1 < |c| { assert c[j + 1] == s[k + j + 1]; }
    }
  }

  /** `re.search`: the leftmost position at or after `from` where `p` matches. */
  function FindMatch(s: string, p: SectionPattern, from: nat): (r: Option<nat>)
    requires from <= |s|
    ensures r.Some? ==> from <= r.value && MatchesAt(s, p, r.value)
                        && forall j :: from <= j < r.value ==> !MatchesAt(s, p, j)
    ensures r.None? ==> forall j :: from <= j ==> !MatchesAt(s, p, j)
    decreases |s| - from
  {
    if MatchesAt(s, p, from) then Some(from)
    else if from == |s| then
      NoMatchAtEnd(s, p, from);
      None
    else FindMatch(s, p, from + 1)
  }

  /** No keyword fits at or after the end of the text. */
  lemma NoMatchAtEnd(s: string, p: SectionPattern, from: nat)
    requires |s| <= from
    ensures forall j :: from <= j ==> !MatchesAt(s, p, j)
  {
    assert |Keyword(p)| > 0;
  }

  /** The capture of the leftmost match of `p`, if any. */
  function Search(s: string, p: SectionPattern): (r: Option<string>)
    ensures r.Some? ==> IsDottedNumber(r.value) && exists i: nat :: Leftmost(s, p, i) && r.value == Capture(s, p, i)
    ensures r.None? ==> forall i: nat :: !MatchesAt(s, p, i)
  {
    match FindMatch(s, p, 0)
    case Some(i) => Some(Capture(s, p, i))
    case None => None
  }

  /** Tries the patterns in order and returns the first capture, or "unknown". */
  function FirstCapture(s: string, patterns: seq<SectionPattern>): (r: string)
    ensures r == "unknown" || IsDottedNumber(r)
  {
    if patterns == [] then "unknown"
    else match Search(s, patterns[0])
      case Some(c) => c
      case None => FirstCapture(s, patterns[1..])
  }

  /** `RetrievalSystem._extract_section`. */
  function ExtractSection(text: string): (r: string)
    ensures r == "unknown" || IsDottedNumber(r)
  {
    FirstCapture(text, Patterns)
  }

  ghost predicate MatchesSomewhere(s: string, p: SectionPattern) {
    exists i: nat :: MatchesAt(s, p, i)
  }

  ghost predicate Leftmost(s: string, p: SectionPattern, i: nat) {
    MatchesAt(s, p, i) && forall j: nat :: j < i ==> !MatchesAt(s, p, j)
  }

  /** First match wins: the tag is the capture of the leftmost match of the
      highest-priority pattern that matches anywhere in the text. */
  lemma ExtractSectionFirstMatchWins(text: string, p: SectionPattern, i: nat)
    requires Leftmost(text, p, i)
    requires forall q :: Priority(q) < Priority(p) ==> !MatchesSomewhere(text, q)
    ensures ExtractSection(text) == Capture(text, p, i)
  {
    var f := FindMatch(text, p, 0);
    assert f == Some(i);
    assert Search(text, p) == Some(Capture(text, p, i));
    assert Patterns[1..] == [ChapterNumber, ArticleNumber];
    assert Patterns[1..][1..] == [ArticleNumber];
    if p == SectionNumber {
      assert FirstCapture(text, Patterns) == Capture(text, p, i);
    } else {
      assert !MatchesSomewhere(text, SectionNumber);
      NoMatchNoSearch(text, SectionNumber);
      assert FirstCapture(text, Patterns) == FirstCapture(text, Patterns[1..]);
      if p == ChapterNumber {
        assert FirstCapture(text, Patterns[1..]) == Capture(text, p, i);
      } else {
        assert !MatchesSomewhere(text, ChapterNumber);
        NoMatchNoSearch(text, ChapterNumber);
        assert FirstCapture(text, Patterns[1..]) == FirstCapture(text, Patterns[1..][1..]);
      }
    }
  }

  lemma NoMatchNoSearch(text: string, p: SectionPattern)
    ensures Search(text, p).None? <==> !MatchesSomewhere(text, p)
  {
    if MatchesSomewhere(text, p) {
      var i: nat :| MatchesAt(text, p, i);
      assert FindMatch(text, p, 0).Some?;
    }
  }

  /** The pattern loop unrolled: Section, then Chapter, then Article, then "unknown". */
  lemma ExtractSectionCases(text: string)
    ensures ExtractSection(text) ==
      if Search(text, SectionNumber).Some? then Search(text, SectionNumber).value
      else if Search(text, ChapterNumber).Some? then Search(text, ChapterNumber).value
      else if Search(text, ArticleNumber).Some? then Search(text, ArticleNumber).value
      else "unknown"
  {
    var none: seq<SectionPattern> := [];
    var last := [ArticleNumber];
    var rest := [ChapterNumber, ArticleNumber];
    assert last[1..] == none && rest[1..] == last && Patterns[1..] == rest;
    var a := Search(text, ArticleNumber);
    var c := Search(text, ChapterNumber);
    var s := Search(text, SectionNumber);
    assert FirstCapture(text, none) == "unknown";
    assert FirstCapture(text, last) == if a.Some? then a.value else "unknown";
    assert FirstCapture(text, rest) == if c.Some? then c.value else FirstCapture(text, last);
    assert FirstCapture(text, Patterns) == if s.Some? then s.value else FirstCapture(text, rest);
  }

  /** The tag is "unknown" exactly when no pattern matches anywhere. */
  lemma ExtractSectionUnknownIff(text: string)
    ensures ExtractSection(text) == "unknown" <==>
      !MatchesSomewhere(text, SectionNumber) && !MatchesSomewhere(text, ChapterNumber) && !MatchesSomewhere(text, ArticleNumber)
  {
    ExtractSectionCases(text);
    NoMatchNoSearch(text, SectionNumber);
    NoMatchNoSearch(text, ChapterNumber);
    NoMatchNoSearch(text, ArticleNumber);
    CaptureIsNotUnknown(text);
  }

  lemma CaptureIsNotUnknown(text: string)
    ensures forall p :: Search(text, p).Some? ==> Search(text, p).value != "unknown"
  {
    forall p | Search(text, p).Some? ensures Search(text, p).value != "unknown" {
      var c := Search(text, p).value;
      assert IsDigit(c[0]);
      assert !IsDigit("unknown"[0]);
    }
  }

  const SampleClause := "Section 310.2 governs ceiling height"

  lemma SampleClauseMatches(s: string)
    requires s == SampleClause
    ensures MatchesAt(s, SectionNumber, 0)
    ensures NumberStart(s, SectionNumber, 0) == 8
  {
    assert s[0..7] == "Section";
    LowerSection();
    assert s[7] == ' ' && s[8] == '3';
    assert SkipSpace(s, 8) == 8;
  }

  lemma LowerSection()
    ensures Lower("Section") == "section"
  {
    var w := Lower("Section");
    assert w[0] == ToLower('S') == 's';
    assert forall j :: 1 <= j < 7 ==> w[j] == "Section"[j] == "section"[j];
  }

  lemma SampleClauseNumberEnds()
    ensures SkipDigits(SampleClause, 8) == 11
    ensures DottedEnd(SampleClause, 11) == 13
  {
    var s := SampleClause;
    assert SkipDigits(s, 11) == 11;
    assert SkipDigits(s, 13) == 13;
    assert SkipDigits(s, 12) == 13;
    assert DottedEnd(s, 13) == 13;
  }

  lemma SampleClauseNumber(s: string)
    requires s == SampleClause
    ensures s[8..13] == "310.2"
  {
    assert s[8] == '3' && s[9] == '1' && s[10] == '0' && s[11] == '.' && s[12] == '2';
    assert forall j :: 0 <= j < 5 ==> s[8..13][j] == "310.2"[j];
  }

  /** The tag of the sample clause is its full dotted section number. */
  lemma SectionTagExample()
    ensures ExtractSection(SampleClause) == "310.2"
  {
    SampleClauseMatches(SampleClause);
    SampleClauseNumberEnds();
    assert Capture(SampleClause, SectionNumber, 0) == SampleClause[8..13];
    SampleClauseNumber(SampleClause);
    ExtractSectionFirstMatchWins(SampleClause, SectionNumber, 0);
  }

  /** Text in which no character can start the keyword of `p` never matches `p`. */
  lemma KeywordAbsent(s: string, p: SectionPattern)
    requires forall j :: 0 <= j < |s| ==> ToLower(s[j]) != Keyword(p)[0]
    ensures !MatchesSomewhere(s, p)
  {
    forall i: nat ensures !MatchesAt(s, p, i) {
      if i + |Keyword(p)| <= |s| {
        assert Lower(s[i..i + |Keyword(p)|])[0] == ToLower(s[i]);
      }
    }
  }

  /** A chunk without any keyword is tagged "unknown". */
  lemma UnknownTagExample()
    ensures ExtractSection("no keyword") == "unknown"
  {
    var s := "no keyword";
    assert forall j :: 0 <= j < |s| ==> ToLower(s[j]) !in {'s', 'c', 'a'};
    KeywordAbsent(s, SectionNumber);
    KeywordAbsent(s, ChapterNumber);
    KeywordAbsent(s, ArticleNumber);
    ExtractSectionUnknownIff(s);
  }

  // ---------------------------------------------------------------------
  // Ingestion: chunk ids, metadata, the four index-aligned lists, batches.
  // ---------------------------------------------------------------------

  type Embedding = seq<real>

  /** An input document; `None` stands for a key missing from the dict. */
  datatype Document = Document(
    id: Option<string>,
    text: Option<string>,
    pageNumber: Option<int>,
    confidence: Option<real>,
    source: Option<string>)

  datatype Metadata = Metadata(
    documentId: string,
    chunkIndex: nat,
    pageNumber: int,
    confidence: real,
    source: string,
    section: string)

  /** One chunk as it stands at the same index in the four lists. */
  datatype Row = Row(text: string, embedding: Embedding, metadata: Metadata, id: string)

  /** The arguments of one `collection.add` call. */
  datatype Batch = Batch(documents: seq<string>, embeddings: seq<Embedding>, metadatas: seq<Metadata>, ids: seq<string>)

  /** The store raising `message` on its `call`-th `collection.add` (counting from 0) of one ingestion. */
  datatype StoreFailure = StoreFailure(call: nat, message: string)

  /** One of the `calls` `collection.add` calls of an ingestion raises. */
  predicate Failing(failure: Option<StoreFailure>, calls: nat) {
    failure.Some? && failure.value.call < calls
  }

  /** What `collection.query` returns for one query embedding (the first row of each list). */
  datatype QueryAnswer = QueryAnswer(documents: seq<string>, metadatas: seq<Metadata>, distances: seq<real>)

  datatype RetrievalResult = RetrievalResult(content: string, metadata: Metadata, score: real)

  const BatchSize: nat := 100
  const DefaultK: nat := 5

  function ChunkId(documentId: string, index: nat): (r: string)
    ensures |r| > |documentId| + 1 && r[..|documentId|] == documentId && r[|documentId|] == '_'
    ensures AllDigits(r[|documentId| + 1..])
  {
    documentId + "_" + NatToString(index)
  }

  /** A chunk id determines its document id and chunk index. */
  lemma ChunkIdInjective(d1: string, i1: nat, d2: string, i2: nat)
    requires ChunkId(d1, i1) == ChunkId(d2, i2)
    ensures d1 == d2 && i1 == i2
  {
    var x := ChunkId(d1, i1);
    var n1, n2 := NatToString(i1), NatToString(i2);
    assert x[|x| - |n1| - 1] == '_' && x[|x| - |n2| - 1] == '_';
    assert forall q :: |x| - |n1| <= q < |x| ==> x[q] == n1[q - (|x| - |n1|)];
    assert forall q :: |x| - |n2| <= q < |x| ==> x[q] == n2[q - (|x| - |n2|)];
    assert |n1| == |n2|;
    assert n1 == x[|x| - |n1|..] == n2;
    assert d1 == x[..|d1|] == d2;
    NatToStringInjective(i1, i2);
  }

  /** `doc.get('id', str(uuid.uuid4()))`, with the fresh token passed in. */
  function DocumentId(doc: Document, generated: string): string {
    if doc.id.Some? then doc.id.value else generated
  }

  function ChunkMetadata(doc: Document, documentId: string, index: nat, chunk: string): Metadata {
    Metadata(
      documentId,
      index,
      if doc.pageNumber.Some? then doc.pageNumber.value else 0,
      if doc.confidence.Some? then doc.confidence.value else 0.0,
      if doc.source.Some? then doc.source.value else "unknown",
      ExtractSection(chunk))
  }

  /** The rows one document contributes, in split order. */
  function DocumentRows(split: string -> seq<string>, encode: string -> Embedding, doc: Document, documentId: string): (rows: seq<Row>)
    requires doc.text.Some?
    ensures |rows| == |split(doc.text.value)|
  {
    var chunks := split(doc.text.value);
    seq(|chunks|, idx requires 0 <= idx < |chunks| =>
      Row(chunks[idx], encode(chunks[idx]), ChunkMetadata(doc, documentId, idx, chunks[idx]), ChunkId(documentId, idx)))
  }

  predicate AllHaveText(docs: seq<Document>) {
    forall d :: 0 <= d < |docs| ==> docs[d].text.Some?
  }

  function TotalChunks(split: string -> seq<string>, docs: seq<Document>): nat
    requires AllHaveText(docs)
  {
    if docs == [] then 0
    else TotalChunks(split, docs[..|docs| - 1]) + |split(docs[|docs| - 1].text.value)|
  }

  /** All rows, document after document, as the nested loops of `add_documents` append them. */
  function AllRows(split: string -> seq<string>, encode: string -> Embedding, docs: seq<Document>, generated: seq<string>): (rows: seq<Row>)
    requires |generated| == |docs| && AllHaveText(docs)
    ensures |rows| == TotalChunks(split, docs)
  {
    if docs == [] then []
    else
      var n := |docs| - 1;
      AllRows(split, encode, docs[..n], generated[..n]) + DocumentRows(split, encode, docs[n], DocumentId(docs[n], generated[n]))
  }

  /** Every row carries the id, index, defaults and tag of the chunk it holds,
      and comes from one of the documents. */
  lemma RowOrigin(split: string -> seq<string>, encode: string -> Embedding, docs: seq<Document>, generated: seq<string>, j: nat)
    returns (d: nat, idx: nat)
    requires |generated| == |docs| && AllHaveText(docs)
    requires j < |AllRows(split, encode, docs, generated)|
    ensures d < |docs| && idx < |split(docs[d].text.value)|
    ensures var row := AllRows(split, encode, docs, generated)[j];
            var id := DocumentId(docs[d], generated[d]);
            && row.text == split(docs[d].text.value)[idx]
            && row.embedding == encode(row.text)
            && row.metadata == ChunkMetadata(docs[d], id, idx, row.text)
            && row.id == ChunkId(id, idx)
  {
    var n := |docs| - 1;
    var prefix := AllRows(split, encode, docs[..n], generated[..n]);
    if j < |prefix| {
      d, idx := RowOrigin(split, encode, docs[..n], generated[..n], j);
    } else {
      d, idx := n, j - |prefix|;
    }
  }

  predicate IdsDistinct(rows: seq<Row>) {
    forall j, k :: 0 <= j < k < |rows| ==> rows[j].id != rows[k].id
  }

  lemma AppendDistinct(a: seq<Row>, b: seq<Row>)
    requires IdsDistinct(a) && IdsDistinct(b)
    requires forall j, k :: 0 <= j < |a| && 0 <= k < |b| ==> a[j].id != b[k].id
    ensures IdsDistinct(a + b)
  {
    var ab := a + b;
    forall j, k | 0 <= j < k < |ab| ensures ab[j].id != ab[k].id {
      if k < |a| {
        assert ab[j] == a[j] && ab[k] == a[k];
      } else if j >= |a| {
        assert ab[j] == b[j - |a|] && ab[k] == b[k - |a|];
      } else {
        assert ab[j] == a[j] && ab[k] == b[k - |a|];
      }
    }
  }

  /** The chunks of one document get distinct ids. */
  lemma DocumentIdsDistinct(split: string -> seq<string>, encode: string -> Embedding, doc: Document, documentId: string)
    requires doc.text.Some?
    ensures IdsDistinct(DocumentRows(split, encode, doc, documentId))
  {
    var rows := DocumentRows(split, encode, doc, documentId);
    forall j, k | 0 <= j < k < |rows| ensures rows[j].id != rows[k].id {
      if rows[j].id == rows[k].id {
        ChunkIdInjective(documentId, j, documentId, k);
      }
    }
  }

  /** Chunk ids are pairwise distinct as soon as the document ids are. */
  lemma {:induction false} ChunkIdsDistinct(split: string -> seq<string>, encode: string -> Embedding, docs: seq<Document>, generated: seq<string>)
    requires |generated| == |docs| && AllHaveText(docs)
    requires forall a, b :: 0 <= a < b < |docs| ==> DocumentId(docs[a], generated[a]) != DocumentId(docs[b], generated[b])
    ensures IdsDistinct(AllRows(split, encode, docs, generated))
  {
    if docs != [] {
      var n := |docs| - 1;
      var id := DocumentId(docs[n], generated[n]);
      var prefix := AllRows(split, encode, docs[..n], generated[..n]);
      var last := DocumentRows(split, encode, docs[n], id);
      ChunkIdsDistinct(split, encode, docs[..n], generated[..n]);
      DocumentIdsDistinct(split, encode, docs[n], id);
      forall j, k | 0 <= j < |prefix| && 0 <= k < |last| ensures prefix[j].id != last[k].id {
        var d, idx := RowOrigin(split, encode, docs[..n], generated[..n], j);
        assert docs[..n][d] == docs[d] && generated[..n][d] == generated[d];
        if prefix[j].id == last[k].id {
          ChunkIdInjective(DocumentId(docs[d], generated[d]), idx, id, k);
        }
      }
      AppendDistinct(prefix, last);
    }
  }

  function Texts(rows: seq<Row>): (r: seq<string>)
    ensures |r| == |rows|
  {
    seq(|rows|, j requires 0 <= j < |rows| => rows[j].text)
  }

  function Embeddings(rows: seq<Row>): (r: seq<Embedding>)
    ensures |r| == |rows|
  {
    seq(|rows|, j requires 0 <= j < |rows| => rows[j].embedding)
  }

  function Metadatas(rows: seq<Row>): (r: seq<Metadata>)
    ensures |r| == |rows|
  {
    seq(|rows|, j requires 0 <= j < |rows| => rows[j].metadata)
  }

  function Ids(rows: seq<Row>): (r: seq<string>)
    ensures |r| == |rows|
  {
    seq(|rows|, j requires 0 <= j < |rows| => rows[j].id)
  }

  function ToBatch(rows: seq<Row>): Batch {
    Batch(Texts(rows), Embeddings(rows), Metadatas(rows), Ids(rows))
  }

  function Min(a: int, b: int): int {
    if a < b then a else b
  }

  /** `xs[s:s + 100]` for s = start, start + 100, ... below |xs|. */
  function Slices<T>(xs: seq<T>, start: nat): (r: seq<seq<T>>)
    ensures |r| == if start < |xs| then (|xs| - start + BatchSize - 1) / BatchSize else 0
    ensures forall k :: 0 <= k < |r| ==> 0 < |r[k]| <= BatchSize
    decreases |xs| - start
  {
    if start >= |xs| then []
    else [xs[start..Min(start + BatchSize, |xs|)]] + Slices(xs, start + BatchSize)
  }

  /** The k-th slice is the k-th window of 100 (the last one shorter). */
  lemma {:induction false} SliceAt<T>(xs: seq<T>, start: nat, k: nat)
    requires k < |Slices(xs, start)|
    ensures Slices(xs, start)[k] == xs[start + k * BatchSize..Min(start + k * BatchSize + BatchSize, |xs|)]
    decreases k
  {
    if k > 0 {
      SliceAt(xs, start + BatchSize, k - 1);
    }
  }

  /** The slices cover the lists exactly, in order. */
  lemma {:induction false} SlicesCover<T>(xs: seq<T>, start: nat)
    requires start <= |xs|
    ensures Concat(Slices(xs, start)) == xs[start..]
    decreases |xs| - start
  {
    if start < |xs| {
      var end := Min(start + BatchSize, |xs|);
      SlicesCover(xs, end);
      if end < |xs| {
        assert Slices(xs, start + BatchSize) == Slices(xs, end);
      } else {
        assert Slices(xs, start + BatchSize) == [];
      }
      assert xs[start..] == xs[start..end] + xs[end..];
    }
  }

  /** The `collection.add` calls for the rows, one per slice. */
  function Batches(rows: seq<Row>, start: nat): (r: seq<Batch>)
    ensures |r| == |Slices(rows, start)|
    decreases |rows| - start
  {
    if start >= |rows| then []
    else [ToBatch(rows[start..Min(start + BatchSize, |rows|)])] + Batches(rows, start + BatchSize)
  }

  /** The `k`-th `collection.add` call carries the four columns of the `k`-th slice. */
  lemma {:induction false} BatchesOfSlices(rows: seq<Row>, start: nat, k: nat)
    requires k < |Batches(rows, start)|
    ensures Batches(rows, start)[k] == ToBatch(Slices(rows, start)[k])
    decreases k
  {
    if k > 0 {
      BatchesOfSlices(rows, start + BatchSize, k - 1);
    }
  }

  lemma ColumnsOfSlice(rows: seq<Row>, s: nat, e: nat)
    requires s <= e <= |rows|
    ensures Texts(rows)[s..e] == Texts(rows[s..e])
    ensures Embeddings(rows)[s..e] == Embeddings(rows[s..e])
    ensures Metadatas(rows)[s..e] == Metadatas(rows[s..e])
    ensures Ids(rows)[s..e] == Ids(rows[s..e])
  {
  }

  lemma PrefixStep<T>(xs: seq<T>, i: nat)
    requires i < |xs|
    ensures xs[..i + 1] == xs[..i] + [xs[i]]
  {
  }

  lemma ColumnsAppend(rows: seq<Row>, row: Row)
    ensures Texts(rows + [row]) == Texts(rows) + [row.text]
    ensures Embeddings(rows + [row]) == Embeddings(rows) + [row.embedding]
    ensures Metadatas(rows + [row]) == Metadatas(rows) + [row.metadata]
    ensures Ids(rows + [row]) == Ids(rows) + [row.id]
  {
  }

  lemma ColumnsConcat(a: seq<Row>, b: seq<Row>)
    ensures Texts(a + b) == Texts(a) + Texts(b)
    ensures Embeddings(a + b) == Embeddings(a) + Embeddings(b)
    ensures Metadatas(a + b) == Metadatas(a) + Metadatas(b)
    ensures Ids(a + b) == Ids(a) + Ids(b)
  {
  }

  /** Ingesting one more document appends its rows. */
  lemma AllRowsStep(split: string -> seq<string>, encode: string -> Embedding, docs: seq<Document>, generated: seq<string>, d: nat)
    requires d < |docs| == |generated| && AllHaveText(docs[..d]) && docs[d].text.Some?
    ensures AllHaveText(docs[..d + 1])
    ensures AllRows(split, encode, docs[..d + 1], generated[..d + 1])
         == AllRows(split, encode, docs[..d], generated[..d]) + DocumentRows(split, encode, docs[d], DocumentId(docs[d], generated[d]))
  {
    assert docs[..d + 1][..d] == docs[..d];
    assert generated[..d + 1][..d] == generated[..d];
  }

  /** The arguments `collection.add` receives: `[start:stop]` of each of the four lists. */
  function Window(chunks: seq<string>, embeddings: seq<Embedding>, metadatas: seq<Metadata>, ids: seq<string>, start: nat, stop: nat): Batch
    requires start <= stop <= |chunks| && |embeddings| == |metadatas| == |ids| == |chunks|
  {
    Batch(chunks[start..stop], embeddings[start..stop], metadatas[start..stop], ids[start..stop])
  }

  /** There is an `n`-th slice exactly when the `n`-th window starts inside the list. */
  lemma {:induction false} SliceCount<T>(xs: seq<T>, start: nat, n: nat)
    ensures n < |Slices(xs, start)| <==> start + n * BatchSize < |xs|
    decreases n
  {
    if n > 0 && start < |xs| {
      SliceCount(xs, start + BatchSize, n - 1);
    }
  }

  /** The `n`-th `collection.add` call starts at row `n * 100` and sends the next slice of the four lists. */
  lemma {:induction false} NextCall(all: seq<Batch>, n: nat, rows: seq<Row>,
                 chunks: seq<string>, embeddings: seq<Embedding>, metadatas: seq<Metadata>, ids: seq<string>, start: nat)
    requires chunks == Texts(rows) && embeddings == Embeddings(rows) && metadatas == Metadatas(rows) && ids == Ids(rows)
    requires all == Batches(rows, 0) && start == n * BatchSize && start < |rows|
    ensures n < |all| && all[..n + 1] == all[..n] + [all[n]]
    ensures all[n] == Window(chunks, embeddings, metadatas, ids, start, Min(start + BatchSize, |rows|))
    ensures start + BatchSize == (n + 1) * BatchSize
  {
    SliceCount(rows, 0, n);
    SliceAt(rows, 0, n);
    BatchesOfSlices(rows, 0, n);
    ColumnsOfSlice(rows, start, Min(start + BatchSize, |rows|));
  }

  /** Once the window start passes the end of the list, every call has been made. */
  lemma {:induction false} LastCall(all: seq<Batch>, n: nat, rows: seq<Row>, start: nat)
    requires all == Batches(rows, 0) && start == n * BatchSize && |rows| <= start && n <= |all|
    ensures n == |all| && all[..n] == all
  {
    SliceCount(rows, 0, n);
  }

  /** The results `retrieve` builds from a query answer: one per aligned triple, `score = 1 - distance`. */
  function Results(answer: QueryAnswer): (r: seq<RetrievalResult>)
    ensures |r| == Min(Min(|answer.documents|, |answer.metadatas|), |answer.distances|)
  {
    var n := Min(Min(|answer.documents|, |answer.metadatas|), |answer.distances|);
    seq(n, i requires 0 <= i < n => RetrievalResult(answer.documents[i], answer.metadatas[i], 1.0 - answer.distances[i]))
  }

  predicate Ascending(xs: seq<real>) {
    forall i, j :: 0 <= i < j < |xs| ==> xs[i] <= xs[j]
  }

  /** Nearest first in distance is best first in score, and equal distances give equal scores. */
  lemma ResultsRankByScore(answer: QueryAnswer)
    requires Ascending(answer.distances)
    ensures var r := Results(answer);
            forall i, j :: 0 <= i < j < |r| ==> r[i].score >= r[j].score
  {
  }

  lemma ResultsCopyContent(answer: QueryAnswer, i: nat)
    requires i < |Results(answer)|
    ensures Results(answer)[i].content == answer.documents[i]
    ensures Results(answer)[i].metadata == answer.metadatas[i]
    ensures Results(answer)[i].score + answer.distances[i] == 1.0
  {
  }

  /**
   * The retrieval system over an abstract splitter, encoder and vector store.
   * The store's state is the log of `collection.add` calls it has received;
   * `search` answers a query from that log.
   */
  const MissingTextError: string := "KeyError: 'text'"

  class RetrievalSystem {
    const split: string -> seq<string>
    const encode: string -> Embedding
    const search: (seq<Batch>, Embedding, nat) -> QueryAnswer
    var added: seq<Batch>

    /** Opens the collection with whatever an earlier run persisted in it. */
    constructor(split: string -> seq<string>, encode: string -> Embedding, search: (seq<Batch>, Embedding, nat) -> QueryAnswer, persisted: seq<Batch>)
      ensures this.split == split && this.encode == encode && this.search == search
      ensures added == persisted
    {
      this.split := split;
      this.encode := encode;
      this.search := search;
      added := persisted;
    }

    /**
     * `add_documents`: `generated[d]` is the fresh id drawn for document `d`, and `failure`
     * says which `collection.add` call, if any, raises.
     * A document without text raises `KeyError` before the store is touched; a failing
     * `collection.add` leaves the batches before it stored.
     */
    method AddDocuments(documents: seq<Document>, generated: seq<string>, failure: Option<StoreFailure>) returns (error: Option<string>)
      requires |generated| == |documents|
      modifies this
      ensures !AllHaveText(documents) ==> error == Some(MissingTextError) && added == old(added)
      ensures AllHaveText(documents) ==>
                var all := Batches(AllRows(split, encode, documents, generated), 0);
                if failure.Some? && failure.value.call < |all|
                then error == Some(failure.value.message) && added == old(added) + all[..failure.value.call]
                else error.None? && added == old(added) + all
    {
      var chunks: seq<string> := [];
      var embeddings: seq<Embedding> := [];
      var metadatas: seq<Metadata> := [];
      var ids: seq<string> := [];
      ghost var rows: seq<Row> := [];
      var d := 0;
      while d < |documents|
        invariant 0 <= d <= |documents|
        invariant added == old(added)
        invariant AllHaveText(documents[..d])
        invariant rows == AllRows(split, encode, documents[..d], generated[..d])
        invariant chunks == Texts(rows) && embeddings == Embeddings(rows)
        invariant metadatas == Metadatas(rows) && ids == Ids(rows)
      {
        var doc := documents[d];
        var docId := DocumentId(doc, generated[d]);
        if doc.text.None? {
          return Some(MissingTextError);
        }
        var c, e, m, i := ChunkDocument(doc, docId);
        ghost var docRows := DocumentRows(split, encode, doc, docId);
        ColumnsConcat(rows, docRows);
        chunks, embeddings, metadatas, ids := chunks + c, embeddings + e, metadatas + m, ids + i;
        AllRowsStep(split, encode, documents, generated, d);
        rows := rows + docRows;
        d := d + 1;
      }
      assert documents[..d] == documents && generated[..d] == generated;
      error := InsertBatches(chunks, embeddings, metadatas, ids, rows, failure);
    }

    /** The inner loop of `add_documents`: the four columns of one document's chunks. */
    method ChunkDocument(doc: Document, docId: string)
      returns (chunks: seq<string>, embeddings: seq<Embedding>, metadatas: seq<Metadata>, ids: seq<string>)
      requires doc.text.Some?
      ensures var rows := DocumentRows(split, encode, doc, docId);
              chunks == Texts(rows) && embeddings == Embeddings(rows) && metadatas == Metadatas(rows) && ids == Ids(rows)
    {
      var docChunks := split(doc.text.value);
      ghost var docRows := DocumentRows(split, encode, doc, docId);
      chunks, embeddings, metadatas, ids := [], [], [], [];
      var idx := 0;
      while idx < |docChunks|
        invariant 0 <= idx <= |docChunks|
        invariant chunks == Texts(docRows[..idx]) && embeddings == Embeddings(docRows[..idx])
        invariant metadatas == Metadatas(docRows[..idx]) && ids == Ids(docRows[..idx])
      {
        var chunk := docChunks[idx];
        var chunkId := docId + "_" + NatToString(idx);
        var embedding := encode(chunk);
        var metadata := ChunkMetadata(doc, docId, idx, chunk);
        ColumnsAppend(docRows[..idx], Row(chunk, embedding, metadata, chunkId));
        PrefixStep(docRows, idx);
        chunks := chunks + [chunk];
        embeddings := embeddings + [embedding];
        metadatas := metadatas + [metadata];
        ids := ids + [chunkId];
        idx := idx + 1;
      }
      assert docRows[..idx] == docRows;
    }

    /** The batch loop of `add_documents`: one `collection.add` per slice of 100 rows, until one raises. */
    method InsertBatches(chunks: seq<string>, embeddings: seq<Embedding>, metadatas: seq<Metadata>, ids: seq<string>,
                         ghost rows: seq<Row>, failure: Option<StoreFailure>)
      returns (error: Option<string>)
      requires chunks == Texts(rows) && embeddings == Embeddings(rows) && metadatas == Metadatas(rows) && ids == Ids(rows)
      modifies this
      ensures Failing(failure, |Batches(rows, 0)|) ==>
                error == Some(failure.value.message) && added == old(added) + Batches(rows, 0)[..failure.value.call]
      ensures !Failing(failure, |Batches(rows, 0)|) ==> error.None? && added == old(added) + Batches(rows, 0)
    {
      ghost var all := Batches(rows, 0);
      var n := 0;
      var start := 0;
      while start < |chunks|
        invariant start == n * BatchSize && n <= |all|
        invariant added == old(added) + all[..n]
        invariant failure.Some? ==> n <= failure.value.call
      {
        var end := start + BatchSize;
        var stop := Min(end, |chunks|);
        NextCall(all, n, rows, chunks, embeddings, metadatas, ids, start);
        if failure.Some? && failure.value.call == n {
          return Some(failure.value.message);
        }
        added := added + [Window(chunks, embeddings, metadatas, ids, start, stop)];
        start := end;
        n := n + 1;
      }
      LastCall(all, n, rows, start);
      return None;
    }

    /** `retrieve`: the store's answer for the query's embedding, as results. */
    method Retrieve(query: string, k: nat := DefaultK) returns (retrieved: seq<RetrievalResult>)
      ensures retrieved == Results(search(added, encode(query), k))
    {
      var answer := search(added, encode(query), k);
      var docs, metas, dists := answer.documents, answer.metadatas, answer.distances;
      retrieved := [];
      var i := 0;
      while i < |docs| && i < |metas| && i < |dists|
        invariant 0 <= i <= Min(Min(|docs|, |metas|), |dists|)
        invariant retrieved == Results(answer)[..i]
      {
        retrieved := retrieved + [RetrievalResult(docs[i], metas[i], 1.0 - dists[i])];
        i := i + 1;
      }
    }
  }
}
