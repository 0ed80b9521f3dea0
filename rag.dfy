/**
 * The knowledge-base side of the chat context: mapping the rows that the
 * vector search returns into documents (skipping rows that fail to map,
 * swallowing every other failure into an empty result) and rendering the
 * documents into the knowledge text of the prompt.
 *
 * The embedding provider and the similarity search are given as functions;
 * `None` stands for the exception each of them may throw.
 */
module Rag {
  import opened Wrappers
  import opened Text

  /** A value in a row of the native similarity query, by its runtime class. */
  datatype Cell =
    | Null
    | LongValue(n: int)
    | Varchar(s: string)
    | SqlTimestamp(t: int)
    | LocalDateTimeValue(t: int)
    | OtherValue

  /** A row: id, document_id, title, content, category, tags, embedding, created_date, updated_date, similarity. */
  type Row = seq<Cell>

  /** A knowledge-base entry; every field may be null. */
  datatype KnowledgeDocument = KnowledgeDocument(
    id: Option<int>,
    documentId: Option<string>,
    title: Option<string>,
    content: Option<string>,
    category: Option<string>,
    tags: Option<string>,
    embedding: Option<string>,
    createdDate: Option<int>,
    updatedDate: Option<int>)

  // ------------------------------------------------------------ row mapping

  /** `(Long) cell` does not throw. */
  predicate CastsToLong(c: Cell) { c.Null? || c.LongValue? }

  /** `(String) cell` does not throw. */
  predicate CastsToString(c: Cell) { c.Null? || c.Varchar? }

  function LongOf(c: Cell): Option<int>
  {
    if c.LongValue? then Some(c.n) else None
  }

  function StringOf(c: Cell): Option<string>
  {
    if c.Varchar? then Some(c.s) else None
  }

  /** The timestamp columns: set when the value is a Timestamp or a LocalDateTime, left null otherwise. */
  function TimestampOf(c: Cell): Option<int>
  {
    match c
    case SqlTimestamp(t) => Some(t)
    case LocalDateTimeValue(t) => Some(t)
    case _ => None
  }

  /**
   * Mapping one row; `None` when the mapping throws: a column index beyond the
   * row, or a cast to Long or String of a value of another class.
   */
  function MapRow(row: Row): (r: Option<KnowledgeDocument>)
    ensures r.Some? <==> |row| >= 9 && CastsToLong(row[0]) && forall k :: 1 <= k < 7 ==> CastsToString(row[k])
    ensures r.Some? ==>
      r.value.title == StringOf(row[2]) && r.value.content == StringOf(row[3]) && r.value.category == StringOf(row[4])
  {
    if |row| >= 9 && CastsToLong(row[0]) && forall k :: 1 <= k < 7 ==> CastsToString(row[k]) then
      Some(KnowledgeDocument(LongOf(row[0]), StringOf(row[1]), StringOf(row[2]), StringOf(row[3]),
        StringOf(row[4]), StringOf(row[5]), StringOf(row[6]), TimestampOf(row[7]), TimestampOf(row[8])))
    else None
  }

  /** The documents of the rows that map, in the rows' order. */
  function MappedRows(rows: seq<Row>): (docs: seq<KnowledgeDocument>)
    ensures |docs| <= |rows|
    ensures forall d :: d in docs ==> exists i :: 0 <= i < |rows| && MapRow(rows[i]) == Some(d)
  {
    if rows == [] then []
    else
      var init := MappedRows(rows[..|rows| - 1]);
      var last := rows[|rows| - 1];
      assert forall i :: 0 <= i < |rows| - 1 ==> rows[..|rows| - 1][i] == rows[i];
      match MapRow(last)
      case Some(d) => init + [d]
      case None => init
  }

  /** Mapping distributes over concatenation: the surviving documents keep the store's order. */
  lemma {:induction false} MappedRowsAppend(a: seq<Row>, b: seq<Row>)
    ensures MappedRows(a + b) == MappedRows(a) + MappedRows(b)
    decreases |b|
  {
    if b == [] {
      assert a + b == a;
    } else {
      var b' := b[..|b| - 1];
      assert (a + b)[..|a + b| - 1] == a + b';
      assert (a + b)[|a + b| - 1] == b[|b| - 1];
      MappedRowsAppend(a, b');
    }
  }

  /** The positions of the rows that map. */
  ghost function MappingRows(rows: seq<Row>): set<int>
  {
    set i | 0 <= i < |rows| && MapRow(rows[i]).Some?
  }

  /** The last row adds its own position, when it maps, to those of the rows before it. */
  lemma MappingRowsExtend(rows: seq<Row>)
    requires rows != []
    ensures var n := |rows| - 1;
      MappingRows(rows) == MappingRows(rows[..n]) + (if MapRow(rows[n]).Some? then {n} else {})
  {
    var n := |rows| - 1;
    var extended := MappingRows(rows[..n]) + (if MapRow(rows[n]).Some? then {n} else {});
    forall i
      ensures i in MappingRows(rows) <==> i in extended
    {
      if 0 <= i < n {
        assert rows[..n][i] == rows[i];
      }
    }
  }

  /** Every row that maps contributes exactly one document, and no other row does. */
  lemma {:induction false} MappedRowsCount(rows: seq<Row>)
    ensures |MappedRows(rows)| == |MappingRows(rows)|
  {
    if rows != [] {
      var n := |rows| - 1;
      MappedRowsCount(rows[..n]);
      MappingRowsExtend(rows);
      assert n !in MappingRows(rows[..n]);
    }
  }

  /**
   * The row-by-row conversion loop: each row is mapped on its own, and a row
   * whose mapping throws is skipped.
   */
  method ConvertRows(rows: seq<Row>) returns (docs: seq<KnowledgeDocument>)
    ensures docs == MappedRows(rows)
  {
    docs := [];
    var i := 0;
    while i < |rows|
      invariant 0 <= i <= |rows|
      invariant docs == MappedRows(rows[..i])
    {
      var kb := MapRow(rows[i]);
      assert rows[..i + 1][..i] == rows[..i];
      if kb.Some? {
        docs := docs + [kb.value];
      }
      i := i + 1;
    }
    assert rows[..|rows|] == rows;
  }

  // -------------------------------------------------------------- retrieval

  /** A search result as retrieval sees it: nothing when the search throws, the mapped rows otherwise. */
  function MappedResult(results: Option<seq<Row>>): seq<KnowledgeDocument>
  {
    match results
    case None => []
    case Some(rows) => MappedRows(rows)
  }

  /** What retrieveRelevantDocuments returns for `query`. */
  function RelevantDocuments(
    query: string, limit: int,
    embed: string -> Option<string>,
    findSimilar: (string, int) -> Option<seq<Row>>): seq<KnowledgeDocument>
  {
    match embed(query)
    case None => []
    case Some(e) => MappedResult(findSimilar(e, limit))
  }

  /** What retrieveRelevantDocumentsByCategory returns for `query`. */
  function RelevantDocumentsInCategory(
    query: string, category: string, limit: int,
    embed: string -> Option<string>,
    findSimilarInCategory: (string, string, int) -> Option<seq<Row>>): seq<KnowledgeDocument>
  {
    match embed(query)
    case None => []
    case Some(e) => MappedResult(findSimilarInCategory(e, category, limit))
  }

  /**
   * retrieveRelevantDocuments: embed the query, search the `limit` nearest
   * documents, map the rows. It never throws: a failure gives no documents.
   */
  method RetrieveRelevantDocuments(
    query: string, limit: int,
    embed: string -> Option<string>,
    findSimilar: (string, int) -> Option<seq<Row>>)
    returns (docs: seq<KnowledgeDocument>)
    ensures docs == RelevantDocuments(query, limit, embed, findSimilar)
    ensures embed(query).None? ==> docs == []
    ensures embed(query).Some? && findSimilar(embed(query).value, limit).None? ==> docs == []
    ensures embed(query).Some? && findSimilar(embed(query).value, limit).Some? ==>
      docs == MappedRows(findSimilar(embed(query).value, limit).value)
  {
    var queryEmbedding := embed(query);
    if queryEmbedding.None? {
      return [];
    }
    var results := findSimilar(queryEmbedding.value, limit);
    if results.None? {
      return [];
    }
    docs := ConvertRows(results.value);
  }

  /** retrieveRelevantDocumentsByCategory: the same, over the category-filtered search. */
  method RetrieveRelevantDocumentsByCategory(
    query: string, category: string, limit: int,
    embed: string -> Option<string>,
    findSimilarInCategory: (string, string, int) -> Option<seq<Row>>)
    returns (docs: seq<KnowledgeDocument>)
    ensures docs == RelevantDocumentsInCategory(query, category, limit, embed, findSimilarInCategory)
    ensures embed(query).None? ==> docs == []
    ensures embed(query).Some? && findSimilarInCategory(embed(query).value, category, limit).None? ==> docs == []
    ensures embed(query).Some? && findSimilarInCategory(embed(query).value, category, limit).Some? ==>
      docs == MappedRows(findSimilarInCategory(embed(query).value, category, limit).value)
  {
    var queryEmbedding := embed(query);
    if queryEmbedding.None? {
      return [];
    }
    var results := findSimilarInCategory(queryEmbedding.value, category, limit);
    if results.None? {
      return [];
    }
    docs := ConvertRows(results.value);
  }

  // --------------------------------------------------------------- rendering

  const NoInformation: string := "No relevant information found."
  const KnowledgeHeader: string := "Based on the following knowledge base information:\n\n"

  /** StringBuilder.append of a possibly null String. */
  function Str(s: Option<string>): string
  {
    if s.Some? then s.value else "null"
  }

  /** The Document / Category / Content block of one document. */
  function DocumentBlock(doc: KnowledgeDocument): string
  {
    "Document: " + Str(doc.title) + "\n" + "Category: " + Str(doc.category) + "\n"
    + "Content: " + Str(doc.content) + "\n\n"
  }

  /** The knowledge text buildContext renders. */
  function KnowledgeText(docs: seq<KnowledgeDocument>): string
  {
    if docs == [] then NoInformation else KnowledgeHeader + JoinMap(docs, DocumentBlock)
  }

  /**
   * The i-th block of the knowledge text is the block of the i-th document:
   * the header, the blocks of the documents before it, its own block, then the rest.
   */
  lemma KnowledgeTextAt(docs: seq<KnowledgeDocument>, i: int)
    requires 0 <= i < |docs|
    ensures KnowledgeText(docs)
         == KnowledgeHeader + (JoinMap(docs[..i], DocumentBlock) + DocumentBlock(docs[i])
            + JoinMap(docs[i + 1..], DocumentBlock))
  {
    JoinMapAt(docs, DocumentBlock, i);
  }

  /** buildContext: a fixed line for no documents, else the header and one block per document. */
  method BuildContext(documents: seq<KnowledgeDocument>) returns (context: string)
    ensures context == KnowledgeText(documents)
  {
    if documents == [] {
      return NoInformation;
    }
    context := KnowledgeHeader;
    var i := 0;
    while i < |documents|
      invariant 0 <= i <= |documents|
      invariant context == KnowledgeHeader + JoinMap(documents[..i], DocumentBlock)
    {
      var doc := documents[i];
      assert documents[..i + 1][..i] == documents[..i];
      AppendAssoc(KnowledgeHeader, JoinMap(documents[..i], DocumentBlock), DocumentBlock(doc));
      context := context + DocumentBlock(doc);
      i := i + 1;
    }
    assert documents[..|documents|] == documents;
  }
}
