/** `PDFService`: keeps the documents read from PDF URLs in an in-memory
    store, combines several PDFs into one document, and serves lookups,
    searches, listings and deletions on the store. What reading a PDF URL
    gives is a parameter; document ids and the current time are parameters
    too. The reader the service calls, `PDFReader.read_pdf_from_url`, is
    not defined in agents/src/tools/pdf_reader.py, so as written every read
    raises: `ReadAsWritten` is that outcome, and the `Read` and
    `ReadFailed` outcomes describe the reader the service evidently
    expects. */
module PdfService {
  import opened Wrappers
  import opened Text
  import opened TermSearch
  import opened OrderedDict

  /** What reading one PDF URL gave: a result with `success` true and its
      fields, a result with `success` false and maybe an `error`, or an
      exception with its text. */
  datatype UrlRead =
    | Read(content: string, pageCount: int, contentLength: int, fileSize: int, processedAt: string)
    | ReadFailed(error: Option<string>)
    | ReadRaised(exception: string)

  /** One entry of `processed_docs`. */
  datatype ProcessedDoc = ProcessedDoc(url: string, contentLength: nat, pageCount: int, fileSize: int)

  /** The metadata of a combined document. */
  datatype Combination = Combination(
    sourceUrls: seq<string>, processedDocs: seq<ProcessedDoc>, totalPages: int, totalSize: int, processedAt: string)

  /** One value of `processed_documents`. The reader's own metadata of a
      single document is not part of this model; a combined document keeps
      its `Combination`. */
  datatype StoredDocument = StoredDocument(
    documentId: string,
    url: string,
    content: string,
    pageCount: int,
    contentLength: int,
    fileSize: int,
    processedAt: string,
    status: string,
    combination: Option<Combination>)

  /** The answer of `process_pdf_from_url`. */
  datatype ProcessResult = ProcessResult(
    documentId: string, content: string, pageCount: int, contentLength: int, fileSize: int, url: string)

  /** The answer of `process_multiple_pdfs`. */
  datatype MultiOutcome =
    | NoContent(error: string, processedDocs: seq<ProcessedDoc>)
    | Combined(
        documentId: string,
        content: string,
        combination: Combination,
        pageCount: int,
        contentLength: nat,
        fileSize: int,
        processedDocsCount: nat,
        totalDocsAttempted: nat)

  /** The answer of `search_document_content`. */
  datatype DocumentSearch = DocumentSearch(
    documentId: string, searchResults: map<string, TermResult>, totalTermsSearched: nat, termsFound: nat)

  const Processed: string := "processed"
  const DocumentNotFound: HttpError := HttpError(404, "Document not found")
  const NoContentError: string := "No content could be extracted from any of the provided PDFs"

  /** Every stored document carries its own key as `document_id` and the
      status "processed". */
  predicate WellFormed(d: Dict<StoredDocument>) {
    && d.Valid()
    && forall k :: k in d.entries ==> d.entries[k].documentId == k && d.entries[k].status == Processed
  }

  // ---------------------------------------------------------------------------
  // process_pdf_from_url

  /** The entry stored for a successful read. */
  function SingleDocument(id: string, url: string, read: UrlRead): StoredDocument
    requires read.Read?
  {
    StoredDocument(id, url, read.content, read.pageCount, read.contentLength, read.fileSize, read.processedAt, Processed, None)
  }

  /** The error a failed read raises: a reported failure is a 400 quoting
      the reader's error, an exception a 500 quoting the exception. */
  function ProcessError(read: UrlRead): (e: HttpError)
    requires !read.Read?
    ensures read.ReadFailed? ==> e.status == 400 && StartsWith(e.detail, "Failed to process PDF: ")
    ensures read.ReadRaised? ==> e.status == 500 && StartsWith(e.detail, "Failed to process PDF from URL: ")
  {
    match read
    case ReadFailed(error) => HttpError(400, "Failed to process PDF: " + error.GetOr("Unknown error"))
    case ReadRaised(exception) => HttpError(500, "Failed to process PDF from URL: " + exception)
  }

  /** What `str()` of the `AttributeError` reads: `PDFReader` has no
      `read_pdf_from_url`. */
  const MissingReader: string := "'PDFReader' object has no attribute 'read_pdf_from_url'"

  /** The outcome of every read as the service is written: the call raises
      `AttributeError`, which the generic handler turns into a 500. */
  function ReadAsWritten(url: string): UrlRead {
    ReadRaised(MissingReader)
  }

  /** As written, `process_pdf_from_url` answers every URL with the same
      500 and, having raised, stores nothing. */
  lemma AsWrittenAlwaysFails(url: string)
    ensures !ReadAsWritten(url).Read?
    ensures ProcessError(ReadAsWritten(url)) == HttpError(500, "Failed to process PDF from URL: " + MissingReader)
  {
  }

  /** The store step keeps the store well formed. */
  lemma PutKeepsWellFormed(d: Dict<StoredDocument>, k: string, doc: StoredDocument)
    requires WellFormed(d) && doc.documentId == k && doc.status == Processed
    ensures WellFormed(d.Put(k, doc))
  {
  }

  // ---------------------------------------------------------------------------
  // process_multiple_pdfs

  /** A read that adds a section to the combined content. */
  predicate Contributes(read: UrlRead) {
    read.Read? && read.content != ""
  }

  function Header(i: nat, url: string): string {
    "\n\n--- DOCUMENT " + NatToString(i + 1) + ": " + url + " ---\n"
  }

  function Footer(i: nat): string {
    "\n--- END DOCUMENT " + NatToString(i + 1) + " ---\n"
  }

  /** What URL number `i` (counted from 0) adds to the combined content. */
  function Section(i: nat, url: string, read: UrlRead): string {
    if Contributes(read) then Header(i, url) + read.content + Footer(i) else ""
  }

  function DocOf(url: string, read: UrlRead): ProcessedDoc
    requires read.Read?
  {
    ProcessedDoc(url, |read.content|, read.pageCount, read.fileSize)
  }

  /** `combined_content` after the first `n` URLs. */
  function CombinedContent(urls: seq<string>, outcomes: seq<UrlRead>, n: nat): string
    requires n <= |urls| && n <= |outcomes|
  {
    if n == 0 then "" else CombinedContent(urls, outcomes, n - 1) + Section(n - 1, urls[n - 1], outcomes[n - 1])
  }

  /** `processed_docs` after the first `n` URLs. */
  function ProcessedDocs(urls: seq<string>, outcomes: seq<UrlRead>, n: nat): seq<ProcessedDoc>
    requires n <= |urls| && n <= |outcomes|
  {
    if n == 0 then []
    else ProcessedDocs(urls, outcomes, n - 1)
         + (if Contributes(outcomes[n - 1]) then [DocOf(urls[n - 1], outcomes[n - 1])] else [])
  }

  /** The page total of a list of processed documents. */
  function SumPages(docs: seq<ProcessedDoc>): int {
    if docs == [] then 0 else SumPages(docs[..|docs| - 1]) + docs[|docs| - 1].pageCount
  }

  /** The size total of a list of processed documents. */
  function SumSizes(docs: seq<ProcessedDoc>): int {
    if docs == [] then 0 else SumSizes(docs[..|docs| - 1]) + docs[|docs| - 1].fileSize
  }

  /** The store after the first `n` URLs: each successful read stores its
      own document, whether or not it has content. */
  function Stored(d: Dict<StoredDocument>, urls: seq<string>, outcomes: seq<UrlRead>, ids: seq<string>, n: nat)
    : (r: Dict<StoredDocument>)
    requires d.Valid() && n <= |urls| && n <= |outcomes| && n <= |ids|
    ensures r.Valid()
  {
    if n == 0 then d
    else
      var before := Stored(d, urls, outcomes, ids, n - 1);
      if outcomes[n - 1].Read? then before.Put(ids[n - 1], SingleDocument(ids[n - 1], urls[n - 1], outcomes[n - 1]))
      else before
  }

  /** The combined content is blank exactly when no URL contributed, so
      the `strip()` test is the same as "no document had content". */
  lemma {:induction false} CombinedBlankIff(urls: seq<string>, outcomes: seq<UrlRead>, n: nat)
    requires n <= |urls| && n <= |outcomes|
    ensures Strip(CombinedContent(urls, outcomes, n)) == [] <==> forall i :: 0 <= i < n ==> !Contributes(outcomes[i])
  {
    var c := CombinedContent(urls, outcomes, n);
    StripBlank(c);
    if i :| 0 <= i < n && Contributes(outcomes[i]) {
      SectionInCombined(urls, outcomes, i, n);
      SectionNotBlank(i, urls[i], outcomes[i]);
      var at := |CombinedContent(urls, outcomes, i)|;
      assert c[at + 2] == Section(i, urls[i], outcomes[i])[2];
    } else {
      NothingCombined(urls, outcomes, n);
    }
  }

  /** A run of outcomes without a successful read stores nothing. */
  lemma {:induction false} NoReadStoresNothing(d: Dict<StoredDocument>, urls: seq<string>, outcomes: seq<UrlRead>, ids: seq<string>, n: nat)
    requires d.Valid() && n <= |urls| && n <= |outcomes| && n <= |ids|
    requires forall i :: 0 <= i < n ==> !outcomes[i].Read?
    ensures Stored(d, urls, outcomes, ids, n) == d
  {
    if n > 0 {
      NoReadStoresNothing(d, urls, outcomes, ids, n - 1);
    }
  }

  /** A contributing section starts with "\n\n-", so it is never blank. */
  lemma SectionNotBlank(i: nat, url: string, read: UrlRead)
    requires Contributes(read)
    ensures |Section(i, url, read)| > 2 && !IsSpace(Section(i, url, read)[2])
  {
    assert Section(i, url, read)[2] == Header(i, url)[2] == '-';
  }

  lemma {:induction false} NothingCombined(urls: seq<string>, outcomes: seq<UrlRead>, n: nat)
    requires n <= |urls| && n <= |outcomes|
    requires forall i :: 0 <= i < n ==> !Contributes(outcomes[i])
    ensures CombinedContent(urls, outcomes, n) == "" && ProcessedDocs(urls, outcomes, n) == []
  {
    if n > 0 {
      NothingCombined(urls, outcomes, n - 1);
    }
  }

  /** Each URL's section sits in the combined content right after the
      sections of the URLs before it. */
  lemma {:induction false} SectionInCombined(urls: seq<string>, outcomes: seq<UrlRead>, i: nat, n: nat)
    requires i < n <= |urls| && n <= |outcomes|
    ensures OccursAt(CombinedContent(urls, outcomes, n), Section(i, urls[i], outcomes[i]), |CombinedContent(urls, outcomes, i)|)
  {
    var sec := Section(i, urls[i], outcomes[i]);
    if i + 1 < n {
      SectionInCombined(urls, outcomes, i, n - 1);
      OccursInLonger(CombinedContent(urls, outcomes, n - 1), Section(n - 1, urls[n - 1], outcomes[n - 1]),
                     sec, |CombinedContent(urls, outcomes, i)|);
    } else {
      OccursAtEnd(CombinedContent(urls, outcomes, i), sec);
    }
  }

  lemma OccursInLonger(a: string, b: string, t: string, k: int)
    requires OccursAt(a, t, k)
    ensures OccursAt(a + b, t, k)
  {
    assert (a + b)[k..k + |t|] == a[k..k + |t|];
  }

  lemma OccursAtEnd(a: string, t: string)
    ensures OccursAt(a + t, t, |a|)
  {
    assert (a + t)[|a|..|a| + |t|] == t;
  }

  /** `processed_docs` lists exactly the URLs that contributed, with their
      content length, page count and file size. */
  lemma {:induction false} ProcessedDocsExactly(urls: seq<string>, outcomes: seq<UrlRead>, n: nat, doc: ProcessedDoc)
    requires n <= |urls| && n <= |outcomes|
    ensures doc in ProcessedDocs(urls, outcomes, n) <==>
            exists i :: 0 <= i < n && Contributes(outcomes[i]) && doc == DocOf(urls[i], outcomes[i])
  {
    if n > 0 {
      ProcessedDocsExactly(urls, outcomes, n - 1, doc);
      if doc in ProcessedDocs(urls, outcomes, n) && doc !in ProcessedDocs(urls, outcomes, n - 1) {
        assert Contributes(outcomes[n - 1]) && doc == DocOf(urls[n - 1], outcomes[n - 1]);
      }
    }
  }

  /** The store after the loop holds the old keys and the ids of the
      successful outcomes, and stays well formed. */
  lemma {:induction false} StoredKeys(d: Dict<StoredDocument>, urls: seq<string>, outcomes: seq<UrlRead>, ids: seq<string>, n: nat, k: string)
    requires WellFormed(d) && n <= |urls| && n <= |outcomes| && n <= |ids|
    ensures WellFormed(Stored(d, urls, outcomes, ids, n))
    ensures k in Stored(d, urls, outcomes, ids, n).entries <==>
            k in d.entries || exists i :: 0 <= i < n && outcomes[i].Read? && ids[i] == k
  {
    if n > 0 {
      StoredKeys(d, urls, outcomes, ids, n - 1, k);
      if k in Stored(d, urls, outcomes, ids, n).entries && k !in Stored(d, urls, outcomes, ids, n - 1).entries {
        assert outcomes[n - 1].Read? && ids[n - 1] == k;
      }
    }
  }

  /** The loop of `process_multiple_pdfs` over a store value: every
      successful read is stored, and the contributing ones are combined. */
  method AssembleDocuments(d: Dict<StoredDocument>, urls: seq<string>, outcomes: seq<UrlRead>, ids: seq<string>)
    returns (stored: Dict<StoredDocument>, combined: string, docs: seq<ProcessedDoc>, totalPages: int, totalSize: int)
    requires d.Valid() && |outcomes| == |urls| && |ids| == |urls|
    ensures stored == Stored(d, urls, outcomes, ids, |urls|)
    ensures combined == CombinedContent(urls, outcomes, |urls|)
    ensures docs == ProcessedDocs(urls, outcomes, |urls|)
    ensures totalPages == SumPages(docs) && totalSize == SumSizes(docs)
  {
    stored, combined, docs, totalPages, totalSize := d, "", [], 0, 0;
    var i := 0;
    while i < |urls|
      invariant 0 <= i <= |urls|
      invariant stored == Stored(d, urls, outcomes, ids, i)
      invariant combined == CombinedContent(urls, outcomes, i)
      invariant docs == ProcessedDocs(urls, outcomes, i)
      invariant totalPages == SumPages(docs) && totalSize == SumSizes(docs)
    {
      var read := outcomes[i];
      if read.Read? {
        stored := stored.Put(ids[i], SingleDocument(ids[i], urls[i], read));
        if read.content != "" {
          combined := combined + (Header(i, urls[i]) + read.content + Footer(i));
          var doc := ProcessedDoc(urls[i], |read.content|, read.pageCount, read.fileSize);
          assert (docs + [doc])[..|docs|] == docs;
          docs := docs + [doc];
          totalPages := totalPages + read.pageCount;
          totalSize := totalSize + read.fileSize;
        }
      }
      i := i + 1;
    }
  }

  /** The combined entry stored when some URL contributed. */
  function CombinedEntry(id: string, urls: seq<string>, content: string, docs: seq<ProcessedDoc>, now: string)
    : StoredDocument
  {
    var combination := Combination(urls, docs, SumPages(docs), SumSizes(docs), now);
    StoredDocument(id, "combined_" + NatToString(|urls|) + "_documents", content,
                   SumPages(docs), |content|, SumSizes(docs), now, Processed, Some(combination))
  }

  /** As written every read raises (`AsWrittenAlwaysFails`), and a run of
      `process_multiple_pdfs` in which every read raises skips every URL:
      nothing is combined, no document is listed and nothing is stored, so
      the answer is always the no-content error. */
  lemma AsWrittenAddsNothing(d: Dict<StoredDocument>, urls: seq<string>, outcomes: seq<UrlRead>, ids: seq<string>)
    requires d.Valid() && |outcomes| == |urls| && |ids| == |urls|
    requires forall i :: 0 <= i < |urls| ==> outcomes[i].ReadRaised?
    ensures forall i :: 0 <= i < |urls| ==> !Contributes(outcomes[i])
    ensures CombinedContent(urls, outcomes, |urls|) == "" && ProcessedDocs(urls, outcomes, |urls|) == []
    ensures Stored(d, urls, outcomes, ids, |urls|) == d
  {
    NothingCombined(urls, outcomes, |urls|);
    NoReadStoresNothing(d, urls, outcomes, ids, |urls|);
  }

  // ---------------------------------------------------------------------------
  // The service

  class PdfService {
    var documents: Dict<StoredDocument>

    predicate Valid()
      reads this
    {
      WellFormed(documents)
    }

    constructor()
      ensures Valid() && documents == Empty()
    {
      documents := Empty();
    }

    /** `process_pdf_from_url`: a failed read raises and stores nothing;
        a successful one is stored under the fresh `documentId`. */
    method ProcessPdfFromUrl(url: string, read: UrlRead, documentId: string) returns (r: Result<ProcessResult, HttpError>)
      requires Valid()
      modifies this
      ensures Valid()
      ensures !read.Read? ==> r == Err(ProcessError(read)) && documents == old(documents)
      ensures read.Read? ==>
                && documents == old(documents).Put(documentId, SingleDocument(documentId, url, read))
                && r == Ok(ProcessResult(documentId, read.content, read.pageCount, read.contentLength, read.fileSize, url))
    {
      match read {
        case ReadFailed(error) =>
          r := Err(HttpError(400, "Failed to process PDF: " + error.GetOr("Unknown error")));
        case ReadRaised(exception) =>
          r := Err(HttpError(500, "Failed to process PDF from URL: " + exception));
        case Read(content, pageCount, contentLength, fileSize, processedAt) =>
          var doc := StoredDocument(documentId, url, content, pageCount, contentLength, fileSize, processedAt, Processed, None);
          PutKeepsWellFormed(documents, documentId, doc);
          documents := documents.Put(documentId, doc);
          r := Ok(ProcessResult(documentId, content, pageCount, contentLength, fileSize, url));
      }
    }

    /** `process_multiple_pdfs`: `outcomes[i]` is what reading `urls[i]` gave
        and `ids[i]` the id it is stored under; a failed read is skipped.
        With no content at all nothing combined is stored; otherwise the
        combined document is stored under `combinedId`. */
    method ProcessMultiplePdfs(urls: seq<string>, outcomes: seq<UrlRead>, ids: seq<string>, combinedId: string, now: string)
      returns (r: MultiOutcome)
      requires Valid() && |outcomes| == |urls| && |ids| == |urls|
      modifies this
      ensures Valid()
      ensures var stored := Stored(old(documents), urls, outcomes, ids, |urls|);
              var content := CombinedContent(urls, outcomes, |urls|);
              var docs := ProcessedDocs(urls, outcomes, |urls|);
              && ((forall i :: 0 <= i < |urls| ==> !Contributes(outcomes[i])) ==>
                    r == NoContent(NoContentError, []) && documents == stored)
              && ((exists i :: 0 <= i < |urls| && Contributes(outcomes[i])) ==>
                    && documents == stored.Put(combinedId, CombinedEntry(combinedId, urls, content, docs, now))
                    && r == Combined(combinedId, content, Combination(urls, docs, SumPages(docs), SumSizes(docs), now),
                                     SumPages(docs), |content|, SumSizes(docs), |docs|, |urls|))
    {
      var stored, combined, docs, totalPages, totalSize := AssembleDocuments(documents, urls, outcomes, ids);
      StoredKeys(documents, urls, outcomes, ids, |urls|, combinedId);
      documents := stored;
      CombinedBlankIff(urls, outcomes, |urls|);
      if Strip(combined) == "" {
        NothingCombined(urls, outcomes, |urls|);
        return NoContent(NoContentError, docs);
      }
      var combination := Combination(urls, docs, totalPages, totalSize, now);
      var entry := StoredDocument(combinedId, "combined_" + NatToString(|urls|) + "_documents", combined,
                                  totalPages, |combined|, totalSize, now, Processed, Some(combination));
      PutKeepsWellFormed(documents, combinedId, entry);
      documents := documents.Put(combinedId, entry);
      r := Combined(combinedId, combined, combination, totalPages, |combined|, totalSize, |docs|, |urls|);
    }

    /** `get_document_content`. */
    method GetDocumentContent(documentId: string) returns (r: Result<StoredDocument, HttpError>)
      requires Valid()
      ensures documentId !in documents.entries ==> r == Err(DocumentNotFound)
      ensures documentId in documents.entries ==>
                r == Ok(documents.entries[documentId]) && r.value.documentId == documentId
    {
      if documentId !in documents.entries {
        return Err(DocumentNotFound);
      }
      r := Ok(documents.entries[documentId]);
    }

    /** `search_document_content`: 404 for an unknown id; otherwise every
        term is looked up in the stored content with a 300-character
        context window. */
    method SearchDocumentContent(documentId: string, terms: seq<string>) returns (r: Result<DocumentSearch, HttpError>)
      requires Valid()
      ensures documentId !in documents.entries ==> r == Err(DocumentNotFound)
      ensures documentId in documents.entries ==>
                var content := documents.entries[documentId].content;
                && r.Ok?
                && r.value.documentId == documentId
                && r.value.searchResults.Keys == (set t | t in terms)
                && (forall t :: t in r.value.searchResults ==> r.value.searchResults[t] == SearchTerm(content, t, 300))
                && r.value.totalTermsSearched == |terms|
                && r.value.termsFound == FoundCount(r.value.searchResults) <= |terms|
    {
      if documentId !in documents.entries {
        return Err(DocumentNotFound);
      }
      var results, found := SearchTerms(documents.entries[documentId].content, terms, 300);
      r := Ok(DocumentSearch(documentId, results, |terms|, found));
    }

    /** `get_processed_documents`: the count is the store's size, and the
        documents come in insertion order, each processed and with a
        distinct id. */
    method GetProcessedDocuments() returns (totalDocuments: nat, docs: seq<StoredDocument>)
      requires Valid()
      ensures totalDocuments == documents.Size() == |docs|
      ensures docs == documents.Values()
      ensures forall i :: 0 <= i < |docs| ==> docs[i].status == Processed
      ensures forall i, j :: 0 <= i < j < |docs| ==> docs[i].documentId != docs[j].documentId
    {
      docs := documents.Values();
      totalDocuments := documents.Size();
      assert forall i :: 0 <= i < |docs| ==> docs[i].documentId == documents.keys[i];
    }

    /** `delete_document`: 404 for an unknown id; otherwise that id only is
        removed. */
    method DeleteDocument(documentId: string) returns (r: Result<string, HttpError>)
      requires Valid()
      modifies this
      ensures Valid()
      ensures documentId !in old(documents).entries ==> r == Err(DocumentNotFound) && documents == old(documents)
      ensures documentId in old(documents).entries ==>
                && r == Ok("Document " + documentId + " deleted successfully")
                && documents == old(documents).Remove(documentId)
                && documents.Size() == old(documents).Size() - 1
    {
      if documentId !in documents.entries {
        return Err(DocumentNotFound);
      }
      documents := documents.Remove(documentId);
      r := Ok("Document " + documentId + " deleted successfully");
    }
  }
}
