/** The PDF ingestion steps of backend/src/pdf_parser.py: sorting partitioned
    elements into buckets, turning them into tagged chunks, prefixing model
    summaries, and building the documents handed to the stores. Elements are
    objects updated in place; their metadata is a record replaced field by field.
    The partitioner, `chunk_by_title`, the model batch calls and `uuid4` are not
    part of this model: their results are inputs. */
module PdfParser {
  import opened Wrappers
  import opened Text
  import Seqs

  /** `text_categories`. */
  const TextCategories: seq<string> := [
    "FigureCaption", "Footer", "Formula", "Header",
    "ListItem", "NarrativeText", "Title", "UncategorizedText"]

  /** The metadata attributes the code reads or writes; `None` is an attribute
      that is absent (or falsy where the code only tests its truth). */
  datatype Metadata = Metadata(
    pageNumber: Option<int>,
    textAsHtml: Option<string>,
    imageBase64: Option<string>,
    filename: Option<string>,
    contentType: Option<string>,
    description: Option<string>)

  /** What an element holds at one moment. */
  datatype ElementValue = ElementValue(category: string, text: string, metadata: Metadata)

  /** A partitioned element or a chunk: its text and metadata change in place. */
  class Element {
    const category: string
    var text: string
    var metadata: Metadata

    constructor (category: string, text: string, metadata: Metadata)
      ensures Value() == ElementValue(category, text, metadata)
    {
      this.category := category;
      this.text := text;
      this.metadata := metadata;
    }

    function Value(): ElementValue
      reads this
    {
      ElementValue(category, text, metadata)
    }
  }

  /** No element object occurs twice. */
  predicate Distinct(es: seq<Element>) {
    forall i, j :: 0 <= i < j < |es| ==> es[i] != es[j]
  }

  function Values(es: seq<Element>): (vs: seq<ElementValue>)
    reads es
    ensures |vs| == |es| && forall i :: 0 <= i < |es| ==> vs[i] == es[i].Value()
  {
    seq(|es|, i requires 0 <= i < |es| reads es => es[i].Value())
  }

  // ---------------------------------------------------------------------------
  // extract_and_categorize_content

  datatype Bucket = TextBucket | TableBucket | ImageBucket | Dropped

  /** `hasattr(metadata, "image_base64") and metadata.image_base64`. */
  predicate HasImagePayload(m: Metadata) {
    m.imageBase64.Some? && m.imageBase64.value != ""
  }

  /** The bucket an element goes to. Tables come first: a category containing
      "Table" wins even over an image payload; then a non-empty image payload;
      then the eight text categories; anything else is dropped. */
  function BucketOf(v: ElementValue): (b: Bucket)
    ensures b == TableBucket <==> exists i :: OccursAt(v.category, "Table", i)
    ensures b == ImageBucket <==> (forall i :: !OccursAt(v.category, "Table", i)) && HasImagePayload(v.metadata)
    ensures b == TextBucket <==> (forall i :: !OccursAt(v.category, "Table", i)) && !HasImagePayload(v.metadata) && v.category in TextCategories
  {
    if Contains(v.category, "Table") then TableBucket
    else if HasImagePayload(v.metadata) then ImageBucket
    else if v.category in TextCategories then TextBucket
    else Dropped
  }

  /** The elements of `es` in bucket `b`, in their order in `es`. */
  function Select(es: seq<Element>, b: Bucket): (r: seq<Element>)
    reads es
    ensures |r| <= |es|
    ensures forall i :: 0 <= i < |r| ==> r[i] in es && BucketOf(r[i].Value()) == b
  {
    if es == [] then []
    else Select(es[..|es| - 1], b) + if BucketOf(es[|es| - 1].Value()) == b then [es[|es| - 1]] else []
  }

  /** `extract_and_categorize_content`: the text, table and image buckets. */
  method ExtractAndCategorizeContent(elements: seq<Element>)
    returns (textElements: seq<Element>, tableElements: seq<Element>, imageElements: seq<Element>)
    ensures textElements == Select(elements, TextBucket)
    ensures tableElements == Select(elements, TableBucket)
    ensures imageElements == Select(elements, ImageBucket)
  {
    textElements, tableElements, imageElements := [], [], [];
    for i := 0 to |elements|
      invariant textElements == Select(elements[..i], TextBucket)
      invariant tableElements == Select(elements[..i], TableBucket)
      invariant imageElements == Select(elements[..i], ImageBucket)
    {
      assert elements[..i + 1][..i] == elements[..i];
      var element := elements[i];
      if Contains(element.category, "Table") {
        tableElements := tableElements + [element];
      } else if element.metadata.imageBase64.Some? && element.metadata.imageBase64.value != "" {
        imageElements := imageElements + [element];
      } else if element.category in TextCategories {
        textElements := textElements + [element];
      }
    }
    assert elements[..|elements|] == elements;
  }

  /** Every element of `es` that belongs to bucket `b` is selected. */
  lemma {:induction false} SelectComplete(es: seq<Element>, b: Bucket, i: int)
    requires 0 <= i < |es| && BucketOf(es[i].Value()) == b
    ensures es[i] in Select(es, b)
  {
    if i < |es| - 1 {
      assert es[..|es| - 1][i] == es[i];
      SelectComplete(es[..|es| - 1], b, i);
    }
  }

  /** Selection keeps relative order: it distributes over concatenation. */
  lemma {:induction false} SelectConcat(a: seq<Element>, c: seq<Element>, b: Bucket)
    ensures Select(a + c, b) == Select(a, b) + Select(c, b)
    decreases |c|
  {
    if c == [] {
      assert a + c == a;
    } else {
      assert (a + c)[..|a + c| - 1] == a + c[..|c| - 1];
      SelectConcat(a, c[..|c| - 1], b);
    }
  }

  lemma SelectSnoc(init: seq<Element>, last: Element, b: Bucket)
    ensures Select(init + [last], b) == Select(init, b) + if BucketOf(last.Value()) == b then [last] else []
  {
    assert (init + [last])[..|init|] == init;
  }

  /** The elements the four buckets hold together. */
  function Buckets(es: seq<Element>): multiset<Element>
    reads es
  {
    multiset(Select(es, TextBucket)) + multiset(Select(es, TableBucket))
    + multiset(Select(es, ImageBucket)) + multiset(Select(es, Dropped))
  }

  lemma BucketsSnoc(init: seq<Element>, last: Element)
    ensures Buckets(init + [last]) == Buckets(init) + multiset{last}
  {
    SelectSnoc(init, last, TextBucket);
    SelectSnoc(init, last, TableBucket);
    SelectSnoc(init, last, ImageBucket);
    SelectSnoc(init, last, Dropped);
  }

  /** The four buckets partition the input: every element lands in exactly one
      of text, table, image or dropped. */
  lemma {:induction false} SelectPartition(es: seq<Element>)
    ensures Buckets(es) == multiset(es)
  {
    if es != [] {
      var init, last := es[..|es| - 1], es[|es| - 1];
      SelectPartition(init);
      assert es == init + [last];
      BucketsSnoc(init, last);
    }
  }

  /** Selecting from distinct elements gives distinct elements. */
  lemma {:induction false} SelectDistinct(es: seq<Element>, b: Bucket)
    requires Distinct(es)
    ensures Distinct(Select(es, b))
  {
    if es != [] {
      var init := es[..|es| - 1];
      SelectDistinct(init, b);
      var s := Select(init, b);
      assert forall i :: 0 <= i < |s| ==> s[i] in init;
      assert es[|es| - 1] !in init;
    }
  }

  // ---------------------------------------------------------------------------
  // create_rag_chunks

  /** `getattr(metadata, "page_number", "unknown")` inside an f-string. */
  function PageLabel(m: Metadata): string {
    match m.pageNumber
    case Some(n) => DecimalString(n)
    case None => "unknown"
  }

  function WithContentType(v: ElementValue, t: string): (r: ElementValue)
    ensures r.category == v.category && r.text == v.text
    ensures r.metadata == v.metadata.(contentType := Some(t))
  {
    v.(metadata := v.metadata.(contentType := Some(t)))
  }

  /** A chunk from `chunk_by_title`, tagged as text. */
  function TextChunk(v: ElementValue): ElementValue {
    WithContentType(v, "text")
  }

  const TableHeader := "Table from page "

  /** The text a table gets when its HTML rendering is non-empty. */
  function TableText(page: string, html: string): string {
    TableHeader + page + ":\n" + html
  }

  /** A table element, tagged as table; its text is replaced by the page and the
      HTML only when there is HTML. */
  function TableChunk(v: ElementValue): ElementValue {
    var html := v.metadata.textAsHtml.GetOr("");
    var tagged := WithContentType(v, "table");
    if html != "" then tagged.(text := TableText(PageLabel(v.metadata), html)) else tagged
  }

  const ImageHeader := "Image from page "
  const ExtractedMarker := ":\nExtracted text: "
  const NoTextMarker := " [No extracted text available]"

  /** The text an image element gets. */
  function ImageText(page: string, text: string): string {
    ImageHeader + page + if Strip(text) != "" then ExtractedMarker + Strip(text) else NoTextMarker
  }

  /** An image element, tagged as image, with its text rewritten. */
  function ImageChunk(v: ElementValue): ElementValue {
    WithContentType(v, "image").(text := ImageText(PageLabel(v.metadata), v.text))
  }

  function TextChunks(vs: seq<ElementValue>): (r: seq<ElementValue>)
    ensures |r| == |vs|
    ensures forall i :: 0 <= i < |vs| ==>
      r[i].category == vs[i].category && r[i].metadata.contentType == Some("text")
    ensures forall i :: 0 <= i < |vs| ==> r[i].metadata == vs[i].metadata.(contentType := Some("text"))
    ensures forall i :: 0 <= i < |vs| ==> r[i].text == vs[i].text
  {
    seq(|vs|, i requires 0 <= i < |vs| => TextChunk(vs[i]))
  }

  function TableChunks(vs: seq<ElementValue>): (r: seq<ElementValue>)
    ensures |r| == |vs|
    ensures forall i :: 0 <= i < |vs| ==>
      r[i].category == vs[i].category && r[i].metadata.contentType == Some("table")
    ensures forall i :: 0 <= i < |vs| ==> r[i].metadata == vs[i].metadata.(contentType := Some("table"))
  {
    seq(|vs|, i requires 0 <= i < |vs| => TableChunk(vs[i]))
  }

  function ImageChunks(vs: seq<ElementValue>): (r: seq<ElementValue>)
    ensures |r| == |vs|
    ensures forall i :: 0 <= i < |vs| ==>
      r[i].category == vs[i].category && r[i].metadata.contentType == Some("image")
    ensures forall i :: 0 <= i < |vs| ==> r[i].metadata == vs[i].metadata.(contentType := Some("image"))
  {
    seq(|vs|, i requires 0 <= i < |vs| => ImageChunk(vs[i]))
  }

  /** The chunk list `create_rag_chunks` returns, as values. */
  function RagChunks(texts: seq<ElementValue>, tables: seq<ElementValue>, images: seq<ElementValue>): seq<ElementValue> {
    TextChunks(texts) + TableChunks(tables) + ImageChunks(images)
  }

  lemma ValuesConcat(a: seq<Element>, b: seq<Element>)
    ensures Values(a + b) == Values(a) + Values(b)
  {
    ValuesPointwise(a + b, Values(a) + Values(b));
  }

  /** Which of the three loops of `create_rag_chunks` handles a chunk. */
  datatype Kind = TextKind | TableKind | ImageKind

  function Tagged(kind: Kind, v: ElementValue): ElementValue {
    match kind
    case TextKind => TextChunk(v)
    case TableKind => TableChunk(v)
    case ImageKind => ImageChunk(v)
  }

  /** The body of each loop of `create_rag_chunks`, for one element. */
  method RewriteOne(chunk: Element, kind: Kind)
    modifies chunk
    ensures chunk.Value() == Tagged(kind, old(chunk.Value()))
  {
    match kind {
      case TextKind =>
        chunk.metadata := chunk.metadata.(contentType := Some("text"));
      case TableKind =>
        var page := PageLabel(chunk.metadata);
        var html := chunk.metadata.textAsHtml.GetOr("");
        if html != "" {
          chunk.text := TableHeader + page + ":\n" + html;
        }
        chunk.metadata := chunk.metadata.(contentType := Some("table"));
      case ImageKind =>
        var page := PageLabel(chunk.metadata);
        var imageText := ImageHeader + page;
        if chunk.text != "" && Strip(chunk.text) != "" {
          imageText := imageText + ExtractedMarker + Strip(chunk.text);
        } else {
          imageText := imageText + NoTextMarker;
        }
        chunk.text := imageText;
        chunk.metadata := chunk.metadata.(contentType := Some("image"));
    }
  }

  /** The values after the chunks at positions `lo` to `hi` have been handled. */
  function Rewritten(vs: seq<ElementValue>, lo: nat, hi: nat, kind: Kind): (r: seq<ElementValue>)
    requires lo <= hi <= |vs|
    ensures |r| == |vs|
  {
    seq(|vs|, k requires 0 <= k < |vs| => if lo <= k < hi then Tagged(kind, vs[k]) else vs[k])
  }

  predicate RewrittenSoFar(all: seq<Element>, vs: seq<ElementValue>, lo: nat, hi: nat, kind: Kind)
    reads all
    requires |all| == |vs| && lo <= hi <= |vs|
  {
    forall k :: 0 <= k < |all| ==> all[k].Value() == Rewritten(vs, lo, hi, kind)[k]
  }

  /** One iteration: the chunk at position `hi` is handled; no other chunk
      changes. */
  method RewriteStep(ghost all: seq<Element>, chunk: Element, kind: Kind, ghost vs: seq<ElementValue>, ghost lo: nat, ghost hi: nat)
    requires Distinct(all) && |all| == |vs| && lo <= hi < |vs|
    requires chunk == all[hi] && RewrittenSoFar(all, vs, lo, hi, kind)
    modifies chunk
    ensures RewrittenSoFar(all, vs, lo, hi + 1, kind)
  {
    assert chunk.Value() == vs[hi];
    RewriteOne(chunk, kind);
    forall k | 0 <= k < |all| && k != hi ensures all[k].Value() == Rewritten(vs, lo, hi + 1, kind)[k] {
      assert all[k] != chunk;
    }
  }

  /** Before a loop nothing is rewritten yet. */
  lemma RewrittenNone(all: seq<Element>, vs: seq<ElementValue>, lo: nat, kind: Kind)
    requires vs == Values(all) && lo <= |vs|
    ensures RewrittenSoFar(all, vs, lo, lo, kind)
  {
  }

  /** One loop of `create_rag_chunks` over `segment`, the chunks at positions
      `lo` onwards of the full list `all`: each is handled and appended. */
  method RewriteLoop(segment: seq<Element>, allChunks0: seq<Element>, kind: Kind,
                     ghost all: seq<Element>, ghost lo: nat, ghost vs: seq<ElementValue>)
    returns (allChunks: seq<Element>)
    requires Distinct(all) && vs == Values(all)
    requires lo + |segment| <= |all| && forall j :: 0 <= j < |segment| ==> segment[j] == all[lo + j]
    modifies segment
    ensures allChunks == allChunks0 + segment
    ensures Values(all) == Rewritten(vs, lo, lo + |segment|, kind)
  {
    RewrittenNone(all, vs, lo, kind);
    allChunks := allChunks0;
    for j := 0 to |segment|
      invariant allChunks == allChunks0 + segment[..j]
      invariant RewrittenSoFar(all, vs, lo, lo + j, kind)
    {
      var chunk := segment[j];
      RewriteStep(all, chunk, kind, vs, lo, lo + j);
      allChunks := allChunks + [chunk];
      Seqs.TakeSnoc(segment, j);
    }
    assert segment[..|segment|] == segment;
    ValuesPointwise(all, Rewritten(vs, lo, lo + |segment|, kind));
  }

  /** The text loop rewrites the text chunks, at the front, and nothing else. */
  lemma RewrittenTexts(a: seq<ElementValue>, b: seq<ElementValue>, c: seq<ElementValue>)
    ensures Rewritten(a + b + c, 0, |a|, TextKind) == TextChunks(a) + b + c
  {
    var v, r, e := a + b + c, Rewritten(a + b + c, 0, |a|, TextKind), TextChunks(a) + b + c;
    forall k | 0 <= k < |v| ensures r[k] == e[k] {
      if k < |a| {
        assert v[k] == a[k] && e[k] == TextChunks(a)[k];
      } else if k < |a| + |b| {
        assert v[k] == b[k - |a|] && e[k] == b[k - |a|];
      } else {
        assert v[k] == c[k - |a| - |b|] && e[k] == c[k - |a| - |b|];
      }
    }
    assert r == e;
  }

  /** The table loop rewrites the table chunks, in the middle, and nothing else. */
  lemma RewrittenTables(a: seq<ElementValue>, b: seq<ElementValue>, c: seq<ElementValue>)
    ensures Rewritten(a + b + c, |a|, |a| + |b|, TableKind) == a + TableChunks(b) + c
  {
    var v, r, e := a + b + c, Rewritten(a + b + c, |a|, |a| + |b|, TableKind), a + TableChunks(b) + c;
    forall k | 0 <= k < |v| ensures r[k] == e[k] {
      if k < |a| {
        assert v[k] == a[k] && e[k] == a[k];
      } else if k < |a| + |b| {
        assert v[k] == b[k - |a|] && e[k] == TableChunks(b)[k - |a|];
      } else {
        assert v[k] == c[k - |a| - |b|] && e[k] == c[k - |a| - |b|];
      }
    }
    assert r == e;
  }

  /** The image loop rewrites the image chunks, at the back, and nothing else. */
  lemma RewrittenImages(a: seq<ElementValue>, b: seq<ElementValue>, c: seq<ElementValue>)
    ensures Rewritten(a + b + c, |a| + |b|, |a| + |b| + |c|, ImageKind) == a + b + ImageChunks(c)
  {
    var v, r, e := a + b + c, Rewritten(a + b + c, |a| + |b|, |a| + |b| + |c|, ImageKind), a + b + ImageChunks(c);
    forall k | 0 <= k < |v| ensures r[k] == e[k] {
      if k < |a| {
        assert v[k] == a[k] && e[k] == a[k];
      } else if k < |a| + |b| {
        assert v[k] == b[k - |a|] && e[k] == b[k - |a|];
      } else {
        assert v[k] == c[k - |a| - |b|] && e[k] == ImageChunks(c)[k - |a| - |b|];
      }
    }
    assert r == e;
  }

  /** Handling the three segments in turn gives `RagChunks`. */
  lemma RewrittenThrice(texts: seq<ElementValue>, tables: seq<ElementValue>, images: seq<ElementValue>)
    ensures var v0, n1, n2 := texts + tables + images, |texts|, |texts| + |tables|;
      Rewritten(Rewritten(Rewritten(v0, 0, n1, TextKind), n1, n2, TableKind), n2, |v0|, ImageKind)
      == RagChunks(texts, tables, images)
  {
    var t, tb := TextChunks(texts), TableChunks(tables);
    RewrittenTexts(texts, tables, images);
    RewrittenTables(t, tables, images);
    RewrittenImages(t, tb, images);
  }

  /** `create_rag_chunks`, given the chunks `chunk_by_title` made of the text
      elements: every chunk is tagged and the tables' and images' texts are
      rewritten in place; the result lists the text chunks, then the tables, then
      the images. */
  method CreateRagChunks(textChunks: seq<Element>, tableElements: seq<Element>, imageElements: seq<Element>)
    returns (allChunks: seq<Element>)
    requires Distinct(textChunks + tableElements + imageElements)
    modifies textChunks, tableElements, imageElements
    ensures allChunks == textChunks + tableElements + imageElements
    ensures Values(allChunks) == RagChunks(old(Values(textChunks)), old(Values(tableElements)), old(Values(imageElements)))
  {
    ghost var all := textChunks + tableElements + imageElements;
    ghost var texts, tables, images := Values(textChunks), Values(tableElements), Values(imageElements);
    ghost var n1, n2 := |textChunks|, |textChunks| + |tableElements|;
    ValuesConcat(textChunks, tableElements);
    ValuesConcat(textChunks + tableElements, imageElements);
    ghost var v0 := Values(all);
    allChunks := RewriteLoop(textChunks, [], TextKind, all, 0, v0);
    assert allChunks == textChunks;
    ghost var v1 := Values(all);
    assert forall j :: 0 <= j < |tableElements| ==> tableElements[j] == all[n1 + j];
    allChunks := RewriteLoop(tableElements, allChunks, TableKind, all, n1, v1);
    ghost var v2 := Values(all);
    assert forall j :: 0 <= j < |imageElements| ==> imageElements[j] == all[n2 + j];
    allChunks := RewriteLoop(imageElements, allChunks, ImageKind, all, n2, v2);
    RewrittenThrice(texts, tables, images);
  }

  /** `create_rag_chunks` lists the text chunks, then the tables, then the
      images, tagged "text", "table" and "image", and keeps the text chunks'
      texts. */
  lemma {:induction false} RagChunksLayout(texts: seq<ElementValue>, tables: seq<ElementValue>, images: seq<ElementValue>)
    ensures |RagChunks(texts, tables, images)| == |texts| + |tables| + |images|
    ensures forall k :: 0 <= k < |texts| ==>
      RagChunks(texts, tables, images)[k].metadata.contentType == Some("text")
    ensures forall k :: |texts| <= k < |texts| + |tables| ==>
      RagChunks(texts, tables, images)[k].metadata.contentType == Some("table")
    ensures forall k :: |texts| + |tables| <= k < |texts| + |tables| + |images| ==>
      RagChunks(texts, tables, images)[k].metadata.contentType == Some("image")
    ensures forall k :: 0 <= k < |texts| ==> RagChunks(texts, tables, images)[k].text == texts[k].text
  {
    var a, b, c := TextChunks(texts), TableChunks(tables), ImageChunks(images);
    SegmentTypes(a, b, c, "text", "table", "image");
  }

  /** Tags of the three segments of a concatenation. */
  lemma SegmentTypes(a: seq<ElementValue>, b: seq<ElementValue>, c: seq<ElementValue>, ta: string, tb: string, tc: string)
    requires forall i :: 0 <= i < |a| ==> a[i].metadata.contentType == Some(ta)
    requires forall i :: 0 <= i < |b| ==> b[i].metadata.contentType == Some(tb)
    requires forall i :: 0 <= i < |c| ==> c[i].metadata.contentType == Some(tc)
    ensures forall k :: 0 <= k < |a| ==> (a + b + c)[k] == a[k]
    ensures forall k :: |a| <= k < |a| + |b| ==> (a + b + c)[k].metadata.contentType == Some(tb)
    ensures forall k :: |a| + |b| <= k < |a| + |b| + |c| ==> (a + b + c)[k].metadata.contentType == Some(tc)
  {
    forall k | |a| <= k < |a| + |b| ensures (a + b + c)[k].metadata.contentType == Some(tb) {
      assert (a + b + c)[k] == b[k - |a|];
    }
    forall k | |a| + |b| <= k < |a| + |b| + |c| ensures (a + b + c)[k].metadata.contentType == Some(tc) {
      assert (a + b + c)[k] == c[k - |a| - |b|];
    }
  }

  /** A table with HTML reads "Table from page {page}:\n{html}"; one without
      keeps its text. */
  lemma TableChunkText(v: ElementValue)
    ensures var html := v.metadata.textAsHtml.GetOr("");
      && (html != "" ==> TableChunk(v).text == TableHeader + PageLabel(v.metadata) + ":\n" + html)
      && (html == "" ==> TableChunk(v).text == v.text)
    ensures TableChunk(v).category == v.category
  {
  }

  /** An image chunk's text starts with its page header and ends with either the
      stripped extracted text or the no-text marker; the page number and the
      stripped text can be read back from it. */
  lemma {:induction false} ImageChunkText(v: ElementValue)
    ensures var t := ImageChunk(v).text; var page := PageLabel(v.metadata);
      && t[..|ImageHeader + page|] == ImageHeader + page
      && (Strip(v.text) != "" ==> t[|ImageHeader + page|..] == ExtractedMarker + Strip(v.text))
      && (Strip(v.text) == "" ==> t[|ImageHeader + page|..] == NoTextMarker)
  {
    var page := PageLabel(v.metadata);
    var rest := if Strip(v.text) != "" then ExtractedMarker + Strip(v.text) else NoTextMarker;
    assert ImageChunk(v).text == (ImageHeader + page) + rest;
  }

  /** "unknown" never comes out of a page number, so the label tells a known
      page from a missing one. */
  lemma PageLabelKnown(m: Metadata)
    ensures m.pageNumber.None? <==> PageLabel(m) == "unknown"
  {
    if m.pageNumber.Some? {
      DecimalStringParses(m.pageNumber.value);
      var r := DecimalString(m.pageNumber.value);
      assert r[0] == '-' || '0' <= r[0] <= '9';
    }
  }

  // ---------------------------------------------------------------------------
  // enhance_chunks_with_summaries

  /** A model chain's `batch`: one output per input, as far as the model keeps
      to that; `zip` below copes with any length. */
  type Batch = seq<string> -> seq<string>

  predicate HasType(v: ElementValue, t: string) {
    v.metadata.contentType == Some(t)
  }

  /** The positions of the chunks of type `t`, in order. */
  function Positions(vs: seq<ElementValue>, t: string): (ps: seq<nat>)
    ensures forall k :: 0 <= k < |ps| ==> ps[k] < |vs| && HasType(vs[ps[k]], t)
    ensures |ps| <= |vs|
  {
    if vs == [] then []
    else Positions(vs[..|vs| - 1], t) + if HasType(vs[|vs| - 1], t) then [|vs| - 1] else []
  }

  /** The number of chunks of type `t` before position `i`. */
  function Rank(vs: seq<ElementValue>, t: string, i: nat): nat
    requires i <= |vs|
  {
    |Positions(vs[..i], t)|
  }

  /** The positions of a prefix are a prefix of the positions. */
  lemma {:induction false} PositionsPrefix(vs: seq<ElementValue>, t: string, j: nat)
    requires j <= |vs|
    ensures |Positions(vs[..j], t)| <= |Positions(vs, t)|
    ensures Positions(vs[..j], t) == Positions(vs, t)[..|Positions(vs[..j], t)|]
    decreases |vs|
  {
    if j < |vs| {
      var init := vs[..|vs| - 1];
      assert init[..j] == vs[..j];
      PositionsPrefix(init, t, j);
      var a, b := Positions(init, t), Positions(vs[..j], t);
      assert Positions(vs, t)[..|a|] == a;
      assert Positions(vs, t)[..|b|] == a[..|b|];
    } else {
      assert vs[..j] == vs;
    }
  }

  /** A chunk of type `t` is found in `Positions` at its rank. */
  lemma PositionAtRank(vs: seq<ElementValue>, t: string, i: nat)
    requires i < |vs| && HasType(vs[i], t)
    ensures Rank(vs, t, i) < |Positions(vs, t)| && Positions(vs, t)[Rank(vs, t, i)] == i
  {
    assert vs[..i + 1][..i] == vs[..i];
    assert Positions(vs[..i + 1], t) == Positions(vs[..i], t) + [i];
    PositionsPrefix(vs, t, i + 1);
  }

  /** The chunk at `Positions(vs, t)[k]` has rank `k`. */
  lemma {:induction false} RankAtPosition(vs: seq<ElementValue>, t: string, k: nat)
    requires k < |Positions(vs, t)|
    ensures Rank(vs, t, Positions(vs, t)[k]) == k
    decreases |vs|
  {
    var init := vs[..|vs| - 1];
    if k < |Positions(init, t)| {
      var p := Positions(vs, t)[k];
      assert p == Positions(init, t)[k];
      RankAtPosition(init, t, k);
      assert init[..p] == vs[..p];
    } else {
      assert vs[..|vs| - 1] == init;
    }
  }

  datatype Pass = Images | Tables

  function PassType(pass: Pass): string {
    match pass
    case Images => "image"
    case Tables => "table"
  }

  const DescriptionHeader := "Image Description: "
  const TableSummaryHeader := "Table Summary: "
  const Separator := "\n\n"

  /** What one model output does to a chunk: an image gets its description as
      metadata and in front of its text, a table gets its summary in front of
      its text. */
  function Apply(pass: Pass, v: ElementValue, out: string): (r: ElementValue)
    ensures r.category == v.category && r.metadata.contentType == v.metadata.contentType
    ensures pass == Images ==> r.metadata == v.metadata.(description := Some(out))
    ensures pass == Tables ==> r.metadata == v.metadata
  {
    match pass
    case Images => v.(text := DescriptionHeader + out + Separator + v.text, metadata := v.metadata.(description := Some(out)))
    case Tables => v.(text := TableSummaryHeader + out + Separator + v.text)
  }

  /** One `zip` pass: the chunk of the pass's type with rank `r` takes output
      `outs[r]` while there is one; every other chunk stays as it was. */
  function Zipped(vs: seq<ElementValue>, pass: Pass, outs: seq<string>): seq<ElementValue> {
    seq(|vs|, i requires 0 <= i < |vs| =>
      if HasType(vs[i], PassType(pass)) && Rank(vs, PassType(pass), i) < |outs|
      then Apply(pass, vs[i], outs[Rank(vs, PassType(pass), i)])
      else vs[i])
  }

  /** The batch input for an image chunk: its base64 payload when the attribute
      exists, otherwise its text. */
  function ImageInput(v: ElementValue): string {
    match v.metadata.imageBase64
    case Some(b) => b
    case None => v.text
  }

  function PassInput(pass: Pass, v: ElementValue): string {
    match pass
    case Images => ImageInput(v)
    case Tables => v.text
  }

  /** The list handed to the chain's `batch`. */
  function PassInputs(vs: seq<ElementValue>, pass: Pass): (ins: seq<string>)
    ensures |ins| == |Positions(vs, PassType(pass))|
  {
    var ps := Positions(vs, PassType(pass));
    seq(|ps|, k requires 0 <= k < |ps| => PassInput(pass, vs[ps[k]]))
  }

  /** One pass of `enhance_chunks_with_summaries`: nothing happens without a
      chain or without chunks of the pass's type. */
  function Stage(vs: seq<ElementValue>, pass: Pass, chain: Option<Batch>): seq<ElementValue> {
    if chain.Some? && Positions(vs, PassType(pass)) != []
    then Zipped(vs, pass, chain.value(PassInputs(vs, pass)))
    else vs
  }

  /** The chunks after `enhance_chunks_with_summaries`: the image pass, then the
      table pass over the chunks the image pass left. */
  function Enhanced(vs: seq<ElementValue>, imageChain: Option<Batch>, tableChain: Option<Batch>): seq<ElementValue> {
    Stage(Stage(vs, Images, imageChain), Tables, tableChain)
  }

  /** The chunks of a given type, selected from the live objects. */
  function OfType(es: seq<Element>, t: string): (r: seq<Element>)
    reads es
    ensures |r| <= |es|
  {
    if es == [] then []
    else OfType(es[..|es| - 1], t) + if es[|es| - 1].metadata.contentType == Some(t) then [es[|es| - 1]] else []
  }

  /** The selected chunks are those at `Positions` of the chunks' values. */
  lemma {:induction false} OfTypeAt(es: seq<Element>, t: string)
    ensures |OfType(es, t)| == |Positions(Values(es), t)|
    ensures forall k :: 0 <= k < |OfType(es, t)| ==> OfType(es, t)[k] == es[Positions(Values(es), t)[k]]
  {
    if es != [] {
      var init := es[..|es| - 1];
      OfTypeAt(init, t);
      assert Values(es)[..|es| - 1] == Values(init);
    }
  }

  /** Taking one more output changes exactly the chunk of the next rank. */
  lemma ZippedStep(vs: seq<ElementValue>, pass: Pass, outs: seq<string>, k: nat)
    requires k < |outs| && k < |Positions(vs, PassType(pass))|
    ensures forall i :: 0 <= i < |vs| && i != Positions(vs, PassType(pass))[k] ==>
      Zipped(vs, pass, outs[..k + 1])[i] == Zipped(vs, pass, outs[..k])[i]
    ensures var p := Positions(vs, PassType(pass))[k];
      Zipped(vs, pass, outs[..k + 1])[p] == Apply(pass, vs[p], outs[k])
  {
    var t := PassType(pass);
    var p := Positions(vs, t)[k];
    RankAtPosition(vs, t, k);
    forall i | 0 <= i < |vs| && i != p && HasType(vs[i], t)
      ensures Rank(vs, t, i) != k
    {
      PositionAtRank(vs, t, i);
    }
  }

  /** The body of a `zip` loop for one chunk and its model output. */
  method ApplyTo(chunk: Element, pass: Pass, out: string)
    modifies chunk
    ensures chunk.Value() == Apply(pass, old(chunk.Value()), out)
  {
    match pass {
      case Images =>
        chunk.metadata := chunk.metadata.(description := Some(out));
        chunk.text := DescriptionHeader + out + Separator + chunk.text;
      case Tables =>
        chunk.text := TableSummaryHeader + out + Separator + chunk.text;
    }
  }

  /** The first `k` outputs of a pass have been applied to the live chunks. */
  predicate Progress(chunks: seq<Element>, vs: seq<ElementValue>, pass: Pass, outs: seq<string>, k: nat)
    reads chunks
    requires |chunks| == |vs| && k <= |outs|
  {
    forall i :: 0 <= i < |chunks| ==> chunks[i].Value() == Zipped(vs, pass, outs[..k])[i]
  }

  /** One iteration of a `zip` loop: the chunk of rank `k` takes output `k`. */
  method ZipStep(chunks: seq<Element>, chunk: Element, pass: Pass, outs: seq<string>, ghost vs: seq<ElementValue>, k: nat)
    requires Distinct(chunks) && |chunks| == |vs|
    requires k < |outs| && k < |Positions(vs, PassType(pass))|
    requires chunk == chunks[Positions(vs, PassType(pass))[k]] && chunk.Value() == vs[Positions(vs, PassType(pass))[k]]
    requires Progress(chunks, vs, pass, outs, k)
    modifies chunk
    ensures Progress(chunks, vs, pass, outs, k + 1)
  {
    ghost var p := Positions(vs, PassType(pass))[k];
    ZippedStep(vs, pass, outs, k);
    ApplyTo(chunk, pass, outs[k]);
    forall i | 0 <= i < |chunks| && i != p ensures chunks[i].Value() == Zipped(vs, pass, outs[..k + 1])[i] {
      assert chunks[i] != chunk;
    }
  }

  /** One `zip` loop of `enhance_chunks_with_summaries`, applied to the
      selected chunks `sel` in place. */
  method ZipInto(chunks: seq<Element>, sel: seq<Element>, pass: Pass, outs: seq<string>, ghost vs: seq<ElementValue>)
    requires Distinct(chunks) && |vs| == |chunks|
    requires forall i :: 0 <= i < |chunks| ==> chunks[i].Value() == vs[i]
    requires |sel| == |Positions(vs, PassType(pass))|
    requires forall k :: 0 <= k < |sel| ==> sel[k] == chunks[Positions(vs, PassType(pass))[k]]
    modifies chunks
    ensures forall i :: 0 <= i < |chunks| ==> chunks[i].Value() == Zipped(vs, pass, outs)[i]
  {
    ghost var ps := Positions(vs, PassType(pass));
    var n := if |sel| < |outs| then |sel| else |outs|;
    for k := 0 to n
      invariant Progress(chunks, vs, pass, outs, k)
    {
      var chunk := sel[k];
      assert chunk.Value() == vs[ps[k]] by {
        RankAtPosition(vs, PassType(pass), k);
      }
      ZipStep(chunks, chunk, pass, outs, vs, k);
    }
    ZippedAll(vs, pass, outs, n);
  }

  /** Zipping with the outputs a `zip` over `n` selected chunks consumes is the
      same as zipping with them all. */
  lemma ZippedAll(vs: seq<ElementValue>, pass: Pass, outs: seq<string>, n: nat)
    requires n == if |Positions(vs, PassType(pass))| < |outs| then |Positions(vs, PassType(pass))| else |outs|
    ensures Zipped(vs, pass, outs[..n]) == Zipped(vs, pass, outs)
  {
    forall i | 0 <= i < |vs| && HasType(vs[i], PassType(pass))
      ensures Rank(vs, PassType(pass), i) < |outs| <==> Rank(vs, PassType(pass), i) < n
    {
      PositionAtRank(vs, PassType(pass), i);
    }
  }

  /** The list a pass hands to its chain: for images the base64 payload, or
      the text when the chunk has no such attribute; for tables the text. */
  method BatchInputs(sel: seq<Element>, pass: Pass, ghost vs: seq<ElementValue>) returns (data: seq<string>)
    requires |sel| == |Positions(vs, PassType(pass))|
    requires forall k :: 0 <= k < |sel| ==> sel[k].Value() == vs[Positions(vs, PassType(pass))[k]]
    ensures data == PassInputs(vs, pass)
  {
    ghost var ins := PassInputs(vs, pass);
    data := [];
    for k := 0 to |sel|
      invariant data == ins[..k]
    {
      var chunk := sel[k];
      assert ins[k] == PassInput(pass, chunk.Value());
      Seqs.TakeSnoc(ins, k);
      match pass {
        case Images =>
          if chunk.metadata.imageBase64.Some? {
            data := data + [chunk.metadata.imageBase64.value];
          } else {
            data := data + [chunk.text];
          }
        case Tables =>
          data := data + [chunk.text];
      }
    }
    assert ins[..|sel|] == ins;
  }

  lemma ValuesPointwise(es: seq<Element>, ws: seq<ElementValue>)
    requires |ws| == |es| && forall i :: 0 <= i < |es| ==> es[i].Value() == ws[i]
    ensures Values(es) == ws
  {
  }

  /** One pass of `enhance_chunks_with_summaries` over the live chunks. */
  method RunStage(chunks: seq<Element>, pass: Pass, chain: Option<Batch>, ghost vs: seq<ElementValue>)
    requires Distinct(chunks) && vs == Values(chunks)
    modifies chunks
    ensures Values(chunks) == Stage(vs, pass, chain)
  {
    var selected := OfType(chunks, PassType(pass));
    OfTypeAt(chunks, PassType(pass));
    if chain.Some? && selected != [] {
      var inputs := BatchInputs(selected, pass, vs);
      var outputs := chain.value(inputs);
      ZipInto(chunks, selected, pass, outputs, vs);
      ValuesPointwise(chunks, Zipped(vs, pass, outputs));
    }
  }

  /** `enhance_chunks_with_summaries`: image chunks are described, then table
      chunks summarised, in place; the same list is returned. */
  method EnhanceChunksWithSummaries(chunks: seq<Element>, imageChain: Option<Batch>, tableChain: Option<Batch>)
    returns (result: seq<Element>)
    requires Distinct(chunks)
    modifies chunks
    ensures result == chunks
    ensures Values(chunks) == Enhanced(old(Values(chunks)), imageChain, tableChain)
  {
    RunStage(chunks, Images, imageChain, Values(chunks));
    RunStage(chunks, Tables, tableChain, Values(chunks));
    result := chunks;
  }

  /** Two value lists whose content types agree position by position select
      the same positions. */
  lemma {:induction false} PositionsSameTypes(vs: seq<ElementValue>, ws: seq<ElementValue>, t: string)
    requires |vs| == |ws|
    requires forall i :: 0 <= i < |vs| ==> vs[i].metadata.contentType == ws[i].metadata.contentType
    ensures Positions(vs, t) == Positions(ws, t)
  {
    if vs != [] {
      PositionsSameTypes(vs[..|vs| - 1], ws[..|ws| - 1], t);
    }
  }

  /** A pass keeps every chunk's category and content type, and touches only
      chunks of its own type. */
  lemma StageKeeps(vs: seq<ElementValue>, pass: Pass, chain: Option<Batch>)
    ensures |Stage(vs, pass, chain)| == |vs|
    ensures forall i :: 0 <= i < |vs| ==>
      && Stage(vs, pass, chain)[i].category == vs[i].category
      && Stage(vs, pass, chain)[i].metadata.contentType == vs[i].metadata.contentType
      && (!HasType(vs[i], PassType(pass)) ==> Stage(vs, pass, chain)[i] == vs[i])
  {
  }

  /** What `enhance_chunks_with_summaries` does to chunk `i`. An image chunk,
      when there is an image chain, takes the description the chain returned at
      its rank among the image chunks, if the chain returned that many; a table
      chunk likewise takes its summary, computed from the table texts as they
      were on entry; every other chunk, and every chunk without a chain for its
      type, is returned unchanged. */
  lemma EnhancedChunk(vs: seq<ElementValue>, imageChain: Option<Batch>, tableChain: Option<Batch>, i: nat)
    requires i < |vs|
    ensures |Enhanced(vs, imageChain, tableChain)| == |vs|
    ensures HasType(vs[i], "image") && imageChain.Some? ==>
      var descriptions := imageChain.value(PassInputs(vs, Images));
      var r := Rank(vs, "image", i);
      Enhanced(vs, imageChain, tableChain)[i] == if r < |descriptions| then Apply(Images, vs[i], descriptions[r]) else vs[i]
    ensures HasType(vs[i], "table") && tableChain.Some? ==>
      var summaries := tableChain.value(PassInputs(vs, Tables));
      var r := Rank(vs, "table", i);
      Enhanced(vs, imageChain, tableChain)[i] == if r < |summaries| then Apply(Tables, vs[i], summaries[r]) else vs[i]
    ensures (!HasType(vs[i], "image") || imageChain.None?) && (!HasType(vs[i], "table") || tableChain.None?) ==>
      Enhanced(vs, imageChain, tableChain)[i] == vs[i]
  {
    StageKeeps(vs, Images, imageChain);
    StageKeeps(Stage(vs, Images, imageChain), Tables, tableChain);
    if HasType(vs[i], "image") && imageChain.Some? {
      EnhancedImage(vs, imageChain, tableChain, i);
    }
    if HasType(vs[i], "table") && tableChain.Some? {
      EnhancedTable(vs, imageChain, tableChain, i);
    }
  }

  /** The image pass leaves the table pass's positions and ranks as they were. */
  lemma ImagePassKeepsTableRanks(vs: seq<ElementValue>, imageChain: Option<Batch>, i: nat)
    requires i <= |vs|
    ensures Positions(Stage(vs, Images, imageChain), "table") == Positions(vs, "table")
    ensures Rank(Stage(vs, Images, imageChain), "table", i) == Rank(vs, "table", i)
  {
    var v1 := Stage(vs, Images, imageChain);
    StageKeeps(vs, Images, imageChain);
    PositionsSameTypes(vs, v1, "table");
    PositionsSameTypes(vs[..i], v1[..i], "table");
  }

  /** The image pass leaves the table pass's inputs as they were. */
  lemma ImagePassKeepsTableInputs(vs: seq<ElementValue>, imageChain: Option<Batch>)
    ensures PassInputs(Stage(vs, Images, imageChain), Tables) == PassInputs(vs, Tables)
  {
    var v1 := Stage(vs, Images, imageChain);
    ImagePassKeepsTableRanks(vs, imageChain, 0);
    StageKeeps(vs, Images, imageChain);
    var ps := Positions(vs, "table");
    var a, b := PassInputs(v1, Tables), PassInputs(vs, Tables);
    forall k | 0 <= k < |ps| ensures a[k] == b[k] {
      assert v1[ps[k]] == vs[ps[k]];
    }
  }

  /** An image chunk leaves the image pass with its description and the table
      pass untouched. */
  lemma EnhancedImage(vs: seq<ElementValue>, imageChain: Option<Batch>, tableChain: Option<Batch>, i: nat)
    requires i < |vs| && HasType(vs[i], "image") && imageChain.Some?
    ensures var descriptions := imageChain.value(PassInputs(vs, Images));
      var r := Rank(vs, "image", i);
      Enhanced(vs, imageChain, tableChain)[i] == if r < |descriptions| then Apply(Images, vs[i], descriptions[r]) else vs[i]
  {
    var v1 := Stage(vs, Images, imageChain);
    PositionAtRank(vs, "image", i);
    StageKeeps(vs, Images, imageChain);
    StageKeeps(v1, Tables, tableChain);
    assert !HasType(v1[i], "table");
  }

  /** A table chunk passes the image pass unchanged and takes its summary,
      computed from the table texts as they were on entry. */
  lemma EnhancedTable(vs: seq<ElementValue>, imageChain: Option<Batch>, tableChain: Option<Batch>, i: nat)
    requires i < |vs| && HasType(vs[i], "table") && tableChain.Some?
    ensures var summaries := tableChain.value(PassInputs(vs, Tables));
      var r := Rank(vs, "table", i);
      Enhanced(vs, imageChain, tableChain)[i] == if r < |summaries| then Apply(Tables, vs[i], summaries[r]) else vs[i]
  {
    var v1 := Stage(vs, Images, imageChain);
    StageKeeps(vs, Images, imageChain);
    assert v1[i] == vs[i];
    PositionAtRank(vs, "table", i);
    ImagePassKeepsTableRanks(vs, imageChain, i);
    ImagePassKeepsTableInputs(vs, imageChain);
  }

  /** An image description goes into the metadata and in front of the text,
      which survives as a suffix; a table summary goes in front of the text. */
  lemma ApplyKeepsText(pass: Pass, v: ElementValue, out: string)
    ensures var header := match pass case Images => DescriptionHeader case Tables => TableSummaryHeader;
      var t := Apply(pass, v, out).text;
      && t[..|header + out + Separator|] == header + out + Separator
      && t[|header + out + Separator|..] == v.text
    ensures pass == Images ==> Apply(pass, v, out).metadata == v.metadata.(description := Some(out))
    ensures pass == Tables ==> Apply(pass, v, out).metadata == v.metadata
  {
  }

  // ---------------------------------------------------------------------------
  // save_to_multivectorstore

  /** The metadata dictionary of a stored document. */
  datatype DocMetadata = DocMetadata(docId: string, contentType: string, pageNumber: int, filename: string)

  datatype Document = Document(pageContent: string, metadata: DocMetadata)

  /** The document built from one chunk and the id drawn for it: the content
      type lower-cased with "unknown" as default, page -1 and filename "unknown"
      when absent. */
  function DocumentOf(v: ElementValue, docId: string): (d: Document)
    ensures d.pageContent == v.text && d.metadata.docId == docId
    ensures IsLower(d.metadata.contentType)
    ensures v.metadata.contentType.Some? ==> d.metadata.contentType == Lower(v.metadata.contentType.value)
    ensures v.metadata.contentType.None? ==> d.metadata.contentType == "unknown"
    ensures v.metadata.pageNumber.Some? ==> d.metadata.pageNumber == v.metadata.pageNumber.value
    ensures v.metadata.pageNumber.None? ==> d.metadata.pageNumber == -1
    ensures v.metadata.filename.Some? ==> d.metadata.filename == v.metadata.filename.value
    ensures v.metadata.filename.None? ==> d.metadata.filename == "unknown"
  {
    Document(v.text, DocMetadata(
      docId,
      Lower(v.metadata.contentType.GetOr("unknown")),
      v.metadata.pageNumber.GetOr(-1),
      v.metadata.filename.GetOr("unknown")))
  }

  /** `save_to_multivectorstore`, given one fresh id per chunk (the `uuid4`
      draws): one document per chunk in chunk order, added to the vector store,
      and the (id, document) pairs written to the document store. */
  method SaveToMultiVectorStore(enhancedChunks: seq<Element>, freshIds: seq<string>)
    returns (summaryDocs: seq<Document>, docIds: seq<string>, stored: seq<(string, Document)>)
    requires |freshIds| == |enhancedChunks|
    ensures docIds == freshIds
    ensures |summaryDocs| == |enhancedChunks|
    ensures forall i :: 0 <= i < |enhancedChunks| ==> summaryDocs[i] == DocumentOf(enhancedChunks[i].Value(), freshIds[i])
    ensures |stored| == |enhancedChunks|
    ensures forall i :: 0 <= i < |stored| ==> stored[i] == (docIds[i], summaryDocs[i])
  {
    summaryDocs, docIds := [], [];
    var fullDocs := [];
    for i := 0 to |enhancedChunks|
      invariant docIds == freshIds[..i] && |summaryDocs| == i && fullDocs == summaryDocs
      invariant forall k :: 0 <= k < i ==> summaryDocs[k] == DocumentOf(enhancedChunks[k].Value(), freshIds[k])
    {
      var chunk := enhancedChunks[i];
      var docId := freshIds[i];
      docIds := docIds + [docId];
      var contentType := Lower(chunk.metadata.contentType.GetOr("unknown"));
      var pageNumber := chunk.metadata.pageNumber.GetOr(-1);
      var filename := chunk.metadata.filename.GetOr("unknown");
      var doc := Document(chunk.text, DocMetadata(docId, contentType, pageNumber, filename));
      summaryDocs := summaryDocs + [doc];
      fullDocs := fullDocs + [doc];
    }
    stored := seq(|docIds|, i requires 0 <= i < |docIds| => (docIds[i], fullDocs[i]));
  }

  /** The document store after `mset`: later pairs overwrite earlier ones. */
  function Store(pairs: seq<(string, Document)>): (m: map<string, Document>)
    ensures forall i :: 0 <= i < |pairs| ==> pairs[i].0 in m
  {
    if pairs == [] then map[]
    else Store(pairs[..|pairs| - 1])[pairs[|pairs| - 1].0 := pairs[|pairs| - 1].1]
  }

  /** With distinct ids, the store maps every id to the document stored under
      it, so the id in a summary document's metadata finds that document. */
  lemma {:induction false} StoreFinds(pairs: seq<(string, Document)>, i: nat)
    requires i < |pairs|
    requires forall a, b :: 0 <= a < b < |pairs| ==> pairs[a].0 != pairs[b].0
    ensures Store(pairs)[pairs[i].0] == pairs[i].1
  {
    if i < |pairs| - 1 {
      StoreFinds(pairs[..|pairs| - 1], i);
    }
  }

  /** Chunks coming out of `create_rag_chunks` keep their content type through
      the lower-casing: "text", "table" and "image" are stored as they are. */
  lemma RagContentTypeStored(v: ElementValue, docId: string)
    requires v.metadata.contentType in {Some("text"), Some("table"), Some("image")}
    ensures DocumentOf(v, docId).metadata.contentType == v.metadata.contentType.value
  {
    LowerOfLower(v.metadata.contentType.value);
  }
}
