/**
 The offline ingestion of rag/embedding_pipeline.py, reduced to its pure
 parts: `chunk_text`, which cuts a document into fixed-size pieces, and the
 loop in `main` that numbers the points and builds their payloads. Reading
 the corpus, embedding and uploading to the index are not modelled; the
 corpus is given as a sequence of (file name, content) pairs in the order
 the directory listing produced them.
 */
module EmbeddingPipeline {
  import opened Common
  import RagRetriever

  /** Default `chunk_size` of `chunk_text`, the size `main` uses. */
  const DefaultChunkSize: nat := 400

  /** `allowed_roles` written into every payload. */
  const IngestRoles: seq<string> := ["finance", "ops"]

  /** The `while start < len(text)` loop of `chunk_text`, from offset `start`:
      each step slices `text[start:start+size]` (clamped to the end) and
      moves `start` on by `size`. */
  function ChunksFrom(text: string, size: nat, start: nat): (chunks: seq<string>)
    requires size > 0
    ensures chunks == [] <==> start >= |text|
    ensures forall i :: 0 <= i < |chunks| ==> 0 < |chunks[i]| <= size
    decreases |text| - start
  {
    if start < |text| then [text[start..Min(start + size, |text|)]] + ChunksFrom(text, size, start + size)
    else []
  }

  /** `chunk_text`. With a size of zero the source loops forever on any
      non-empty text, so the size is required to be positive. */
  function ChunkText(text: string, size: nat): (chunks: seq<string>)
    requires size > 0
    ensures chunks == [] <==> |text| == 0
    ensures forall i :: 0 <= i < |chunks| ==> 0 < |chunks[i]| <= size
  {
    ChunksFrom(text, size, 0)
  }

  function Concat(parts: seq<string>): string
  {
    if |parts| == 0 then "" else parts[0] + Concat(parts[1..])
  }

  /** The chunks from `start` on glue back to the rest of the text. */
  lemma {:induction false} ChunksFromConcat(text: string, size: nat, start: nat)
    requires size > 0
    ensures Concat(ChunksFrom(text, size, start)) == if start < |text| then text[start..] else ""
    decreases |text| - start
  {
    if start < |text| {
      ChunksFromConcat(text, size, start + size);
      var m := Min(start + size, |text|);
      assert text[start..] == text[start..m] + (if start + size < |text| then text[start + size..] else "");
    }
  }

  /** Chunk `i` from `start` is the slice `[start + i*size, start + (i+1)*size)`,
      clamped to the end of the text, and every chunk but the last is exactly
      `size` long. */
  lemma {:induction false} ChunksFromShape(text: string, size: nat, start: nat)
    requires size > 0
    ensures var c := ChunksFrom(text, size, start);
            forall i :: 0 <= i < |c| ==>
              && start + i * size < |text|
              && c[i] == text[start + i * size .. Min(start + (i + 1) * size, |text|)]
              && (i < |c| - 1 ==> |c[i]| == size)
    decreases |text| - start
  {
    if start < |text| {
      ChunksFromShape(text, size, start + size);
      var c := ChunksFrom(text, size, start);
      var rest := ChunksFrom(text, size, start + size);
      assert c == [text[start..Min(start + size, |text|)]] + rest;
      forall i | 0 <= i < |c|
        ensures && start + i * size < |text|
                && c[i] == text[start + i * size .. Min(start + (i + 1) * size, |text|)]
                && (i < |c| - 1 ==> |c[i]| == size)
      {
        if i > 0 {
          assert c[i] == rest[i - 1];
          assert (start + size) + (i - 1) * size == start + i * size;
          assert (start + size) + i * size == start + (i + 1) * size;
        } else {
          if |c| > 1 {
            assert start + size < |text| by {
              assert |rest| > 0;
            }
          }
        }
      }
    }
  }

  /** The number of chunks from `start` covers the rest of the text exactly:
      one chunk fewer would not reach its end. */
  lemma {:induction false} ChunksFromCount(text: string, size: nat, start: nat)
    requires size > 0
    ensures var k := |ChunksFrom(text, size, start)|;
            if start < |text| then (k - 1) * size < |text| - start <= k * size else k == 0
    decreases |text| - start
  {
    if start < |text| {
      ChunksFromCount(text, size, start + size);
      var k := |ChunksFrom(text, size, start + size)|;
      assert (k + 1) * size == k * size + size;
    }
  }

  lemma MulMonotone(a: int, b: int, n: int)
    requires n > 0 && a <= b
    ensures a * n <= b * n
  {
  }

  lemma DivisionFromBounds(x: int, n: int, q: int)
    requires n > 0 && q * n <= x < (q + 1) * n
    ensures x / n == q
  {
    var d, r := x / n, x % n;
    assert x == d * n + r;
    if d < q {
      MulMonotone(d + 1, q, n);
      assert false;
    } else if d > q {
      MulMonotone(q + 1, d, n);
      assert false;
    }
  }

  /** `chunk_text` round-trips: gluing the chunks back gives the text. */
  lemma ChunkTextRoundTrip(text: string, size: nat)
    requires size > 0
    ensures Concat(ChunkText(text, size)) == text
  {
    ChunksFromConcat(text, size, 0);
    assert text[0..] == text;
  }

  /** `chunk_text` makes ceil(|text| / size) chunks; none for the empty text. */
  lemma ChunkTextCount(text: string, size: nat)
    requires size > 0
    ensures |ChunkText(text, size)| == (|text| + size - 1) / size
    ensures |text| == 0 <==> ChunkText(text, size) == []
  {
    ChunksFromCount(text, size, 0);
    var k := |ChunkText(text, size)|;
    if |text| > 0 {
      assert (k - 1) * size < |text| <= k * size;
      assert k * size <= |text| + size - 1 < (k + 1) * size by {
        assert (k - 1) * size == k * size - size;
        assert (k + 1) * size == k * size + size;
      }
      DivisionFromBounds(|text| + size - 1, size, k);
    } else {
      DivisionFromBounds(size - 1, size, 0);
    }
  }

  /** Chunk `i` of `chunk_text` is the `i`-th slice of `size` characters (the
      last one possibly shorter); no chunk is empty or longer than `size`,
      and all but the last are exactly `size` long. */
  lemma ChunkTextSlices(text: string, size: nat)
    requires size > 0
    ensures var c := ChunkText(text, size);
            && (forall i :: 0 <= i < |c| ==>
                  i * size < |text| && c[i] == text[i * size .. Min((i + 1) * size, |text|)])
            && (forall i :: 0 <= i < |c| ==> 0 < |c[i]| <= size)
            && (forall i :: 0 <= i < |c| - 1 ==> |c[i]| == size)
  {
    var c := ChunkText(text, size);
    ChunksFromShape(text, size, 0);
    forall i | 0 <= i < |c|
      ensures i * size < |text| && c[i] == text[i * size .. Min((i + 1) * size, |text|)]
    {
      assert 0 + i * size == i * size;
      assert 0 + (i + 1) * size == (i + 1) * size;
    }
  }

  /** One corpus file: its base name and its content. */
  datatype Document = Document(name: string, content: string)

  /** A point as uploaded: its id and its payload (the vector is not modelled). */
  datatype IndexedPoint = IndexedPoint(id: nat, payload: RagRetriever.Payload)

  /** Reference payloads for one document: chunk `idx` of its text, tagged
      with the file name, the index within the document and the ingest roles. */
  function DocPayloads(doc: Document): (ps: seq<RagRetriever.Payload>)
    ensures |ps| == |ChunkText(doc.content, DefaultChunkSize)|
    ensures forall i :: 0 <= i < |ps| ==> ps[i].allowedRoles == Some(IngestRoles)
    ensures forall i :: 0 <= i < |ps| ==> ps[i].text.Some? && 0 < |ps[i].text.value| <= DefaultChunkSize
  {
    var chunks := ChunkText(doc.content, DefaultChunkSize);
    seq(|chunks|, idx requires 0 <= idx < |chunks| =>
      RagRetriever.Payload(Some(doc.name), Some(idx), Some(chunks[idx]), Some(IngestRoles)))
  }

  /** Reference payloads for the corpus: the documents' payloads, in order. */
  function AllPayloads(docs: seq<Document>): (ps: seq<RagRetriever.Payload>)
    ensures forall j :: 0 <= j < |ps| ==> ps[j].allowedRoles == Some(IngestRoles)
    ensures forall j :: 0 <= j < |ps| ==> ps[j].text.Some? && 0 < |ps[j].text.value| <= DefaultChunkSize
  {
    if |docs| == 0 then [] else AllPayloads(docs[..|docs| - 1]) + DocPayloads(docs[|docs| - 1])
  }

  /** The point-building loop of `main`: for each document, for each chunk,
      one point whose id is the running counter `pid`, starting at 1. */
  method BuildPoints(docs: seq<Document>) returns (points: seq<IndexedPoint>)
    ensures |points| == |AllPayloads(docs)|
    ensures forall j :: 0 <= j < |points| ==> points[j].id == j + 1
    ensures forall j :: 0 <= j < |points| ==> points[j].payload == AllPayloads(docs)[j]
    ensures forall j :: 0 <= j < |points| ==> points[j].payload.allowedRoles == Some(IngestRoles)
  {
    points := [];
    var pid := 1;
    for d := 0 to |docs|
      invariant pid == |points| + 1
      invariant |points| == |AllPayloads(docs[..d])|
      invariant forall j :: 0 <= j < |points| ==> points[j].id == j + 1
      invariant forall j :: 0 <= j < |points| ==> points[j].payload == AllPayloads(docs[..d])[j]
    {
      var doc := docs[d];
      var chunks := ChunkText(doc.content, DefaultChunkSize);
      ghost var before := AllPayloads(docs[..d]);
      ghost var mine := DocPayloads(doc);
      assert docs[..d + 1][..d] == docs[..d];
      assert AllPayloads(docs[..d + 1]) == before + mine;
      for idx := 0 to |chunks|
        invariant pid == |points| + 1
        invariant |points| == |before| + idx
        invariant forall j :: 0 <= j < |points| ==> points[j].id == j + 1
        invariant forall j :: 0 <= j < |points| ==> points[j].payload == (before + mine)[j]
        {
        var payload := RagRetriever.Payload(Some(doc.name), Some(idx), Some(chunks[idx]), Some(IngestRoles));
        assert payload == mine[idx];
        points := points + [IndexedPoint(pid, payload)];
        pid := pid + 1;
      }
    }
    assert docs[..|docs|] == docs;
  }

  /** The texts carried by a run of payloads, in order. */
  function PayloadTexts(ps: seq<RagRetriever.Payload>): seq<string>
  {
    seq(|ps|, i requires 0 <= i < |ps| => if ps[i].text.Some? then ps[i].text.value else "")
  }

  /** A document's payloads number its chunks from 0 and their texts glue
      back to the document. */
  lemma DocPayloadsRoundTrip(doc: Document)
    ensures forall i :: 0 <= i < |DocPayloads(doc)| ==> DocPayloads(doc)[i].chunkId == Some(i)
    ensures Concat(PayloadTexts(DocPayloads(doc))) == doc.content
  {
    var chunks := ChunkText(doc.content, DefaultChunkSize);
    ChunkTextRoundTrip(doc.content, DefaultChunkSize);
    var ps := DocPayloads(doc);
    var texts := PayloadTexts(ps);
    assert |texts| == |chunks|;
    forall i | 0 <= i < |texts| ensures texts[i] == chunks[i] {
      assert ps[i].text == Some(chunks[i]);
    }
    assert texts == chunks;
  }

  /** Every ingested point is seen by "finance" and "ops" and by no other role. */
  lemma IngestedVisibility(p: IndexedPoint, score: Option<real>, role: string)
    requires p.payload.allowedRoles == Some(IngestRoles)
    ensures RagRetriever.VisibleTo(RagRetriever.ScoredPoint(Some(p.payload), score), role)
        <==> role == "finance" || role == "ops"
  {
  }
}
